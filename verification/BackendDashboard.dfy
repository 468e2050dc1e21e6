/** The dashboard figures inside the running backend: every call moves them by exactly
    the records it adds, changes or removes. */
module BackendDashboard {
  import opened Sums
  import opened Tables
  import opened Backend
  import opened Dashboard
  import Money
  import Records
  import Tokens

  function RecordsOf(records: map<Id, Record>, user: Id): map<Id, Record> {
    map r | r in records && records[r].owner == user :: records[r]
  }

  /** What a call should add to one figure of one group. */
  ghost function Movement(s: State, bearer: Tokens.AccessToken, call: Call, fault: nat, axis: Axis, key: Key,
                          m: Measure): int
  {
    if Perform(s, bearer, call, fault) == s then 0
    else
      match call
      case CreateRecord(n) => Contribution(Records.RowOf(n.(owner := bearer.user)), axis, key, m)
      case UpdateRecord(id, fields) =>
        Contribution(Records.Changed(s.records[id], fields), axis, key, m) - Contribution(s.records[id], axis, key, m)
      case DeleteRecord(id) => -Contribution(s.records[id], axis, key, m)
      case DeleteUser(id) => -Aggregate(RecordsOf(s.records, id), axis, key, m)
      case _ => 0
  }

  /** Dropping a user's records takes their contributions out. */
  lemma DropOwner(records: map<Id, Record>, user: Id, kept: map<Id, Record>, axis: Axis, key: Key, m: Measure)
    requires kept == map r | r in records && records[r].owner != user :: records[r]
    ensures Aggregate(kept, axis, key, m)
         == Aggregate(records, axis, key, m) - Aggregate(RecordsOf(records, user), axis, key, m)
  {
    SumSplit<Id>(Contributions(records, axis, key, m), Contributions(kept, axis, key, m),
                 Contributions(RecordsOf(records, user), axis, key, m));
  }

  /** Each step changes every figure of every dashboard by exactly the contributions of
      the records concerned; calls on other tables change none. */
  lemma CallMovesFigures(s: State, bearer: Tokens.AccessToken, call: Call, fault: nat, axis: Axis, key: Key, m: Measure)
    ensures Aggregate(Perform(s, bearer, call, fault).records, axis, key, m)
         == Aggregate(s.records, axis, key, m) + Movement(s, bearer, call, fault, axis, key, m)
  {
    var t := Perform(s, bearer, call, fault);
    if t != s {
      match call
      case CreateRecord(n) =>
        AggregateUpdate(s.records, s.next, Records.RowOf(n.(owner := bearer.user)), axis, key, m);
      case UpdateRecord(id, fields) =>
        AggregateUpdate(s.records, id, Records.Changed(s.records[id], fields), axis, key, m);
      case DeleteRecord(id) =>
        AggregateUpdate(s.records, id, s.records[id].(deleted := true), axis, key, m);
      case DeleteUser(id) => DropOwner(s.records, id, t.records, axis, key, m);
      case _ =>
    }
  }

  // ---- what the record table can hold ----

  /** One of the four currencies in capitals, and no negative amount. */
  predicate RecordOk(r: Record) {
    r.currency in Records.CURRENCIES && r.amount >= 0
  }

  ghost predicate RecordsOk(s: State) {
    forall id | id in s.records :: RecordOk(s.records[id])
  }

  lemma CallKeepsRecords(s: State, bearer: Tokens.AccessToken, call: Call, fault: nat)
    requires RecordsOk(s)
    ensures RecordsOk(Perform(s, bearer, call, fault))
  {
    var t := Perform(s, bearer, call, fault);
    match call
    case CreateRecord(n) =>
      if t != s {
        Money.RoundOfPositive(n.amount);
      }
    case UpdateRecord(id, fields) =>
      if t != s && fields.amount.Some? {
        Money.RoundOfPositive(Records.AmountOf(fields.amount.value).value);
      }
    case _ =>
  }

  /** In every run the dashboards sum non-negative amounts in known currencies only. */
  lemma {:induction false} RecordsStayOk(cfg: Tokens.Config, w: World, run: seq<Move>)
    requires RecordsOk(w.db)
    ensures RecordsOk(After(cfg, w, run).db)
  {
    if run != [] {
      var before, a := After(cfg, w, run[..|run| - 1]), run[|run| - 1];
      RecordsStayOk(cfg, w, run[..|run| - 1]);
      if a.AsAdmin? {
        CallKeepsRecords(before.db, a.bearer, a.call, a.fault);
      } else {
        assert Step(cfg, before, a).db.records == before.db.records;
      }
    }
  }
}
