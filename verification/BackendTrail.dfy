/** The audit trail and the outbox inside the running backend. */
module BackendTrail {
  import opened Tables
  import opened Backend
  import opened Audit
  import opened LedgerTrail
  import Accounts
  import Auth
  import Ledger
  import Outbox
  import Records
  import Tokens
  import Users

  // ---- what an action logs ----

  /** Either nothing is logged, or one event with its outbox row. */
  ghost predicate LogsAtMostOne(s: State, t: State) {
    || (t.audit == s.audit && t.outbox == s.outbox)
    || (exists event: AuditEvent ::
          && s.next <= event.id < t.next
          && t.audit == s.audit + [event] && t.outbox == s.outbox + [OutboxRow(event.id, false)])
  }

  lemma LogsThis(s: State, t: State, event: AuditEvent)
    requires s.next <= event.id < t.next
    requires t.audit == s.audit + [event] && t.outbox == s.outbox + [OutboxRow(event.id, false)]
    ensures LogsAtMostOne(s, t)
  {
  }

  lemma CallLogs(s: State, bearer: Tokens.AccessToken, call: Call, fault: nat)
    ensures LogsAtMostOne(s, Perform(s, bearer, call, fault))
  {
    var t := Perform(s, bearer, call, fault);
    if t.audit != s.audit || t.outbox != s.outbox {
      LogsThis(s, t, t.audit[|s.audit|]);
    }
  }

  lemma RegisterLogs(s: State, name: string, email: string, password: string, role: string, fault: nat)
    ensures LogsAtMostOne(s, Users.Register(s, name, email, password, role, fault).0)
  {
    var t := Users.Register(s, name, email, password, role, fault).0;
    if t != s {
      LogsThis(s, t, BuildEvent(s.next + 4, "user", s.next, Create));
    }
  }

  lemma LoginLogs(s: State, cfg: Tokens.Config, email: string, password: string, now: Time, fault: nat)
    ensures LogsAtMostOne(s, Auth.Login(s, cfg, email, password, now, fault).0)
  {
    var t := Auth.Login(s, cfg, email, password, now, fault).0;
    if t.audit != s.audit || t.outbox != s.outbox {
      LogsThis(s, t, t.audit[|s.audit|]);
    }
  }

  lemma {:induction false} StepLogs(cfg: Tokens.Config, w: World, a: Move)
    requires !a.Publish?
    ensures LogsAtMostOne(w.db, Step(cfg, w, a).db)
  {
    match a
    case Register(name, email, password, role, fault) => RegisterLogs(w.db, name, email, password, role, fault);
    case Login(email, password, fault) => LoginLogs(w.db, cfg, email, password, w.now, fault);
    case AsAdmin(bearer, call, fault) => CallLogs(w.db, bearer, call, fault);
    case _ =>
  }

  // ---- all or nothing ----

  /** The caller is told of an error. */
  predicate Failed(s: State, bearer: Tokens.AccessToken, call: Call, fault: nat) {
    match call
    case UpdateUser(id, changes) => Users.UpdateUser(s, id, changes, fault).1.Err?
    case DeleteUser(id) => Users.DeleteUser(s, id, fault).1.Err?
    case CreateAccount(key, name, kind, currency, opening) =>
      Accounts.CreateAccount(s, key, bearer.user, name, kind, currency, opening, fault != 0).1.Err?
    case PostTransaction(req) => Ledger.PostTransaction(s, true, req, fault).1.Err?
    case CreateRecord(n) => Records.CreateRecord(s, n.(owner := bearer.user), fault).1.Err?
    case UpdateRecord(id, fields) => Records.UpdateRecord(s, id, fields, fault).1.Err?
    case DeleteRecord(id) => Records.DeleteRecord(s, id, fault).1.Err?
  }

  /** An update that would succeed but whose row cannot be read back after the commit. */
  predicate ReadBackFails(s: State, bearer: Tokens.AccessToken, call: Call, fault: nat) {
    (call.UpdateUser? || call.UpdateRecord?) && fault == 6 && !Failed(s, bearer, call, 0)
  }

  /** Whichever statement fails, the tables are as before exactly when an error is
      reported, the failed read-back of a committed update excepted. */
  lemma AllOrNothing(s: State, bearer: Tokens.AccessToken, call: Call, fault: nat)
    ensures Perform(s, bearer, call, fault) == s
            <==> Failed(s, bearer, call, fault) && !ReadBackFails(s, bearer, call, fault)
  {
    var t := Perform(s, bearer, call, fault);
    if !Failed(s, bearer, call, fault) {
      match call {
        case CreateAccount(key, name, kind, currency, opening) => assert t.accounts.Keys != s.accounts.Keys by {
          var id := if key.Some? then key.value else s.next;
          assert id in t.accounts;
        }
        case _ => assert t.next > s.next;
      }
    }
  }

  // ---- events and outbox rows in bijection ----

  ghost predicate Trailed(s: State) {
    Paired(s.audit, s.outbox) && Issued(s.audit, s.next)
  }

  lemma LoggingKeepsTrail(s: State, t: State)
    requires Trailed(s) && LogsAtMostOne(s, t) && s.next <= t.next
    ensures Trailed(t)
  {
  }

  lemma {:induction false} StepKeepsTrail(cfg: Tokens.Config, w: World, a: Move)
    requires Trailed(w.db)
    ensures Trailed(Step(cfg, w, a).db)
  {
    if !a.Publish? {
      StepLogs(cfg, w, a);
      NextGrows(cfg, w, a);
      LoggingKeepsTrail(w.db, Step(cfg, w, a).db);
    }
  }

  /** In every reachable state the audit events and the outbox rows are in bijection. */
  lemma {:induction false} TrailIsPaired(cfg: Tokens.Config, w: World, run: seq<Move>)
    requires Trailed(w.db)
    ensures Trailed(After(cfg, w, run).db)
  {
    if run != [] {
      TrailIsPaired(cfg, w, run[..|run| - 1]);
      StepKeepsTrail(cfg, After(cfg, w, run[..|run| - 1]), run[|run| - 1]);
    }
  }

  // ---- ledger transactions and their events in bijection ----

  /** Transactions and ledger events in bijection, under ids from the supply. */
  ghost predicate Traced(s: State) {
    && Matched(s.entries, s.audit)
    && (forall t | t in Transactions(s.entries) :: t < s.next)
  }

  /** The action leaves the entries alone and logs no ledger event. */
  ghost predicate LedgerUntouched(s: State, t: State) {
    && t.entries == s.entries
    && (t.audit == s.audit
        || exists e: AuditEvent :: e.entityType != LEDGER && t.audit == s.audit + [e])
  }

  lemma UntouchedKeepsTrace(s: State, t: State)
    requires Traced(s) && LedgerUntouched(s, t) && s.next <= t.next
    ensures Traced(t)
  {
    OtherEventKeepsMatched(s.entries, s.audit, t.audit);
  }

  lemma PostingKeepsTrace(s: State, req: Ledger.PostRequest, fault: nat)
    requires Traced(s)
    ensures Traced(Ledger.PostTransaction(s, true, req, fault).0)
  {
    var (t, r) := Ledger.PostTransaction(s, true, req, fault);
    if r.Ok? {
      PostingKeepsMatched(s.entries, s.audit, s.next, s.next + 1, req);
      PostedTransactions(s.entries, s.next, req);
    }
  }

  lemma UntouchedBy(s: State, t: State, e: AuditEvent)
    requires t.entries == s.entries && t.audit == s.audit + [e] && e.entityType != LEDGER
    ensures LedgerUntouched(s, t)
  {
  }

  lemma CallLeavesLedger(s: State, bearer: Tokens.AccessToken, call: Call, fault: nat)
    requires !call.PostTransaction?
    ensures LedgerUntouched(s, Perform(s, bearer, call, fault))
  {
    var t := Perform(s, bearer, call, fault);
    if t.audit != s.audit {
      UntouchedBy(s, t, t.audit[|s.audit|]);
    }
  }

  lemma StepLeavesLedger(cfg: Tokens.Config, w: World, a: Move)
    requires !(a.AsAdmin? && a.call.PostTransaction?)
    ensures LedgerUntouched(w.db, Step(cfg, w, a).db)
  {
    var t := Step(cfg, w, a).db;
    if a.AsAdmin? {
      CallLeavesLedger(w.db, a.bearer, a.call, a.fault);
    } else if t.audit != w.db.audit {
      UntouchedBy(w.db, t, t.audit[|w.db.audit|]);
    }
  }

  lemma {:induction false} StepKeepsTrace(cfg: Tokens.Config, w: World, a: Move)
    requires Traced(w.db)
    ensures Traced(Step(cfg, w, a).db)
  {
    if a.AsAdmin? && a.call.PostTransaction? {
      PostingKeepsTrace(w.db, a.call.req, a.fault);
    } else {
      StepLeavesLedger(cfg, w, a);
      NextGrows(cfg, w, a);
      UntouchedKeepsTrace(w.db, Step(cfg, w, a).db);
    }
  }

  /** In every reachable state the ledger transactions are in bijection with their audit
      events, hence with the outbox rows of those events. */
  lemma {:induction false} LedgerIsTraced(cfg: Tokens.Config, w: World, run: seq<Move>)
    requires Traced(w.db)
    ensures Traced(After(cfg, w, run).db)
  {
    if run != [] {
      LedgerIsTraced(cfg, w, run[..|run| - 1]);
      StepKeepsTrace(cfg, After(cfg, w, run[..|run| - 1]), run[|run| - 1]);
    }
  }

  // ---- the outbox as the publisher sees it ----

  /** What an action does to the outbox. */
  function OutboxEvents(s: State, t: State, a: Move): seq<Outbox.Event> {
    match a
    case Publish(fetchFails, failing, _) => [if fetchFails then Outbox.FetchFailed else Outbox.Polled(failing)]
    case _ => if |t.outbox| > |s.outbox| then [Outbox.Added(t.outbox[|s.outbox|])] else []
  }

  function OutboxHistory(cfg: Tokens.Config, w: World, run: seq<Move>): seq<Outbox.Event>
    decreases |run|
  {
    if run == [] then []
    else
      var w' := Step(cfg, w, run[0]);
      OutboxEvents(w.db, w'.db, run[0]) + OutboxHistory(cfg, w', run[1..])
  }

  lemma EmptyPoll(rows: seq<OutboxRow>, failing: set<Id>)
    requires Outbox.Batch(rows, |rows|) == []
    ensures Outbox.Poll(rows, failing) == rows
  {
  }

  /** One action is one publisher event at most, and added rows are new and unpublished. */
  lemma {:induction false} StepIsOutboxEvent(cfg: Tokens.Config, w: World, a: Move)
    requires Trailed(w.db)
    ensures var t := Step(cfg, w, a).db;
            var es := OutboxEvents(w.db, t, a);
            if es == [] then t.outbox == w.db.outbox
            else
              && |es| == 1 && t.outbox == Outbox.Step(w.db.outbox, es[0])
              && (es[0].Added? ==> !es[0].row.published && !Outbox.Stored(w.db.outbox, es[0].row.event))
  {
    if a.Publish? {
      if Outbox.Batch(w.db.outbox, |w.db.outbox|) == [] {
        EmptyPoll(w.db.outbox, a.failing);
      }
    } else {
      StepLogs(cfg, w, a);
    }
  }

  lemma PrependEvent(rows: seq<OutboxRow>, mid: seq<OutboxRow>, es: seq<Outbox.Event>, rest: seq<Outbox.Event>)
    requires Outbox.FreshlyAdded(mid, rest)
    requires if es == [] then mid == rows
             else
               && |es| == 1 && mid == Outbox.Step(rows, es[0])
               && (es[0].Added? ==> !es[0].row.published && !Outbox.Stored(rows, es[0].row.event))
    ensures Outbox.Run(rows, es + rest) == Outbox.Run(mid, rest)
    ensures Outbox.FreshlyAdded(rows, es + rest)
  {
    if es == [] {
      assert es + rest == rest;
    } else {
      assert (es + rest)[1..] == rest;
    }
  }

  /** The outbox after a backend run is the publisher's run of the projected events. */
  lemma {:induction false} OutboxIsHistory(cfg: Tokens.Config, w: World, run: seq<Move>)
    requires Trailed(w.db)
    ensures var es := OutboxHistory(cfg, w, run);
            && Outbox.Run(w.db.outbox, es) == After(cfg, w, run).db.outbox
            && Outbox.FreshlyAdded(w.db.outbox, es)
    decreases |run|
  {
    if run != [] {
      var w' := Step(cfg, w, run[0]);
      StepIsOutboxEvent(cfg, w, run[0]);
      StepKeepsTrail(cfg, w, run[0]);
      OutboxIsHistory(cfg, w', run[1..]);
      PrependEvent(w.db.outbox, w'.db.outbox, OutboxEvents(w.db, w'.db, run[0]), OutboxHistory(cfg, w', run[1..]));
      AfterHead(cfg, w, run);
    }
  }

  lemma DeliveredAreLogged(s: State, c: Outbox.Counts)
    requires Trailed(s) && Outbox.Balanced(s.outbox, c)
    ensures forall id | id in c.delivered :: exists e :: e in s.audit && e.id == id
  {
    forall id | id in c.delivered ensures exists e :: e in s.audit && e.id == id {
      var i :| 0 <= i < |s.outbox| && s.outbox[i].event == id;
      assert s.audit[i] in s.audit && s.audit[i].id == id;
    }
  }

  /** From any start whose accounts balance, and at every point of a backend run, each
      event was delivered once per failed mark, plus once if it is published, and nothing
      else was delivered: what reaches subscribers are committed audit events. */
  lemma {:induction false} OnlyCommittedEventsAreDelivered(cfg: Tokens.Config, w: World, run: seq<Move>,
                                                           c: Outbox.Counts)
    requires Trailed(w.db) && Outbox.Balanced(w.db.outbox, c)
    ensures var s := After(cfg, w, run).db;
            var c' := Outbox.Tally(w.db.outbox, c, OutboxHistory(cfg, w, run));
            && Outbox.Balanced(s.outbox, c')
            && (forall id | id in c'.delivered :: exists e :: e in s.audit && e.id == id)
  {
    OutboxIsHistory(cfg, w, run);
    TrailIsPaired(cfg, w, run);
    Outbox.DeliveryAccounting(w.db.outbox, c, OutboxHistory(cfg, w, run));
    DeliveredAreLogged(After(cfg, w, run).db, Outbox.Tally(w.db.outbox, c, OutboxHistory(cfg, w, run)));
  }

  /** An event published at some point of a run is not delivered again by its rest. */
  lemma {:induction false} PublishedIsNotRedelivered(cfg: Tokens.Config, w: World, run: seq<Move>, c: Outbox.Counts,
                                                     i: nat)
    requires Trailed(w.db) && Outbox.Balanced(w.db.outbox, c)
    requires i < |w.db.outbox| && w.db.outbox[i].published
    ensures var event := w.db.outbox[i].event;
            && Outbox.Tally(w.db.outbox, c, OutboxHistory(cfg, w, run)).delivered[event] == c.delivered[event]
            && i < |After(cfg, w, run).db.outbox| && After(cfg, w, run).db.outbox[i] == w.db.outbox[i]
  {
    OutboxIsHistory(cfg, w, run);
    Outbox.NoRedelivery(w.db.outbox, c, OutboxHistory(cfg, w, run), i);
    Outbox.PublishedStays(w.db.outbox, OutboxHistory(cfg, w, run), i);
  }

  // ---- progress over backend runs ----

  /** Publisher rounds of a run whose fetch succeeds. */
  function Rounds(run: seq<Move>): nat
    decreases |run|
  {
    if run == [] then 0 else (if run[0].Publish? && !run[0].fetchFails then 1 else 0) + Rounds(run[1..])
  }

  /** Marks fail for entries in `bad` only. */
  predicate OnlyBadRoundsFail(run: seq<Move>, bad: set<Id>) {
    forall a | a in run && a.Publish? && !a.fetchFails :: a.failing <= bad
  }

  lemma HistoryHead(cfg: Tokens.Config, w: World, run: seq<Move>, bad: set<Id>)
    requires run != [] && (run[0].Publish? && !run[0].fetchFails ==> run[0].failing <= bad)
    ensures var es := OutboxEvents(w.db, Step(cfg, w, run[0]).db, run[0]);
            && Outbox.OnlyBadFail(es, bad)
            && forall rest :: Outbox.Polls(es + rest)
                              == (if run[0].Publish? && !run[0].fetchFails then 1 else 0) + Outbox.Polls(rest)
  {
    var es := OutboxEvents(w.db, Step(cfg, w, run[0]).db, run[0]);
    forall rest ensures Outbox.Polls(es + rest)
                     == (if run[0].Publish? && !run[0].fetchFails then 1 else 0) + Outbox.Polls(rest) {
      if es == [] {
        assert es + rest == rest;
      } else {
        assert (es + rest)[1..] == rest;
      }
    }
  }

  lemma {:induction false} RoundsArePolls(cfg: Tokens.Config, w: World, run: seq<Move>, bad: set<Id>)
    requires OnlyBadRoundsFail(run, bad)
    ensures Outbox.Polls(OutboxHistory(cfg, w, run)) == Rounds(run)
    ensures Outbox.OnlyBadFail(OutboxHistory(cfg, w, run), bad)
    decreases |run|
  {
    if run != [] {
      assert run[0] in run && forall a | a in run[1..] :: a in run;
      HistoryHead(cfg, w, run, bad);
      RoundsArePolls(cfg, Step(cfg, w, run[0]), run[1..], bad);
    }
  }

  /** An entry with q markable and at most k < 50 unmarkable ones ahead of it is published
      in every backend run with floor(q / (50 - k)) + 1 successful rounds, whatever else
      the run does. */
  lemma {:induction false} EventIsPublishedWithin(cfg: Tokens.Config, w: World, run: seq<Move>, i: nat, bad: set<Id>,
                                                  k: nat)
    requires Trailed(w.db) && i < |w.db.outbox| && w.db.outbox[i].event !in bad && OnlyBadRoundsFail(run, bad)
    requires Outbox.Waiting(w.db.outbox, i, bad, true) <= k < 50
    requires Rounds(run) >= Outbox.Waiting(w.db.outbox, i, bad, false) / (50 - k) + 1
    ensures var rows := After(cfg, w, run).db.outbox; i < |rows| && rows[i].published
  {
    RoundsArePolls(cfg, w, run, bad);
    OutboxIsHistory(cfg, w, run);
    Outbox.PublishedWithin(w.db.outbox, OutboxHistory(cfg, w, run), i, bad, k);
  }
}
