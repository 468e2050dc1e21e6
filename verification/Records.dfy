/** services/record_service.go: creating, changing and soft-deleting financial records. */
module Records {
  import opened Common
  import opened Money
  import opened Tables
  import Audit

  // ---- input checks ----

  const CURRENCIES := {"INR", "USD", "EUR", "GBP"}

  function KindOf(name: string): Option<RecordKind> {
    if name == "income" then Some(Income) else if name == "expense" then Some(Outlay) else None
  }

  function UpperChar(c: char): char {
    if 'a' <= c <= 'z' then c - 'a' + 'A' else c
  }

  function Upper(s: string): string {
    seq(|s|, i requires 0 <= i < |s| => UpperChar(s[i]))
  }

  /** Currency codes in capitals stay as they are. */
  lemma UpperKeeps(s: string)
    requires s in CURRENCIES
    ensures Upper(s) == s
  {
    assert |Upper(s)| == |s| && forall i | 0 <= i < |s| :: Upper(s)[i] == s[i];
  }

  /** strings.TrimSpace leaves nothing: spaces, tabs, line and form feeds, returns. */
  predicate Blank(s: string) {
    forall c | c in s :: c == ' ' || '\t' <= c <= '\r'
  }

  // ---- CreateRecord ----

  datatype NewRecord = NewRecord(owner: Id, kind: string, amount: real, currency: string, category: string,
                                 date: Option<Date>, notes: string)

  /** The first check that fails, in the order they are made. */
  function CreateComplaint(n: NewRecord): Option<string> {
    if KindOf(n.kind).None? then Some("invalid type")
    else if n.amount <= 0.0 then Some("amount must be greater than zero")
    else if n.currency != "" && Upper(n.currency) !in CURRENCIES then Some("invalid currency")
    else if Blank(n.category) then Some("category is required")
    else if n.date.None? then Some("date is required")
    else None
  }

  function RowOf(n: NewRecord): Record
    requires CreateComplaint(n).None?
  {
    Record(n.owner, Round(n.amount), if n.currency == "" then "INR" else Upper(n.currency),
           KindOf(n.kind).value, n.category, n.date.value, n.notes, false)
  }

  /** Statements: insert, audit pair, commit. */
  function CreateRecord(s: State, n: NewRecord, faultAt: nat): (State, Result<Id>) {
    var complaint := CreateComplaint(n);
    if complaint.Some? then (s, Err(Validation(complaint.value)))
    else if 1 <= faultAt <= 4 || n.owner !in s.users || s.next in s.records || !Fits(Round(n.amount)) then
      (s, Err(Internal))
    else
      (Audit.Logged(s.(records := s.records[s.next := RowOf(n)]),
                    Audit.BuildEvent(s.next + 1, "record", s.next, Create)).(next := s.next + 2),
       Ok(s.next))
  }

  // ---- UpdateRecord ----

  /** A value of the JSON update map; a text carries the decimal it denotes, if any. */
  datatype Json = Text(s: string, decimal: Option<real>) | Number(r: real) | OtherValue

  datatype RecordChanges = RecordChanges(kind: Option<Json>, amount: Option<Json>, currency: Option<Json>,
                                         category: Option<string>, date: Option<Date>, notes: Option<string>)

  function AmountOf(j: Json): Option<real> {
    match j
    case Number(r) => Some(r)
    case Text(_, d) => d
    case OtherValue => None
  }

  predicate KindChangeOk(c: RecordChanges) {
    c.kind.Some? ==> c.kind.value.Text? && KindOf(c.kind.value.s).Some?
  }

  predicate AmountChangeOk(c: RecordChanges) {
    c.amount.Some? ==> AmountOf(c.amount.value).Some? && AmountOf(c.amount.value).value > 0.0
  }

  predicate CurrencyChangeOk(c: RecordChanges) {
    c.currency.Some? ==> c.currency.value.Text? && Upper(c.currency.value.s) in CURRENCIES
  }

  function UpdateComplaint(c: RecordChanges): Option<string> {
    if !KindChangeOk(c) then Some("invalid type")
    else if !AmountChangeOk(c) then Some("invalid amount")
    else if !CurrencyChangeOk(c) then Some("invalid currency")
    else None
  }

  function Changed(r: Record, c: RecordChanges): Record
    requires UpdateComplaint(c).None?
  {
    r.(kind := if c.kind.Some? then KindOf(c.kind.value.s).value else r.kind,
       amount := if c.amount.Some? then Round(AmountOf(c.amount.value).value) else r.amount,
       currency := if c.currency.Some? then Upper(c.currency.value.s) else r.currency,
       category := if c.category.Some? then c.category.value else r.category,
       date := if c.date.Some? then c.date.value else r.date,
       notes := if c.notes.Some? then c.notes.value else r.notes)
  }

  /** Soft-deleted rows are invisible to every query. */
  predicate Visible(s: State, id: Id) {
    id in s.records && !s.records[id].deleted
  }

  /** Statements: select, update, audit pair, commit, re-read after the commit. */
  function UpdateRecord(s: State, id: Id, c: RecordChanges, faultAt: nat): (State, Result<Record>) {
    if faultAt == 1 then (s, Err(Internal))
    else if !Visible(s, id) then (s, Err(NotFound))
    else
      var complaint := UpdateComplaint(c);
      if complaint.Some? then (s, Err(Validation(complaint.value)))
      else
        var r := Changed(s.records[id], c);
        if 2 <= faultAt <= 5 || !Fits(r.amount) then (s, Err(Internal))
        else
          (Audit.Logged(s.(records := s.records[id := r]),
                        Audit.BuildEvent(s.next, "record", id, Update)).(next := s.next + 1),
           if faultAt == 6 then Err(Internal) else Ok(r))
  }

  // ---- DeleteRecord ----

  /** Statements: select, soft delete, audit pair, commit. */
  function DeleteRecord(s: State, id: Id, faultAt: nat): (State, Result<Id>) {
    if faultAt == 1 then (s, Err(Internal))
    else if !Visible(s, id) then (s, Err(NotFound))
    else if 2 <= faultAt <= 5 then (s, Err(Internal))
    else
      (Audit.Logged(s.(records := s.records[id := s.records[id].(deleted := true)]),
                    Audit.BuildEvent(s.next, "record", id, Delete)).(next := s.next + 1),
       Ok(id))
  }
}

/** The record calls as the service runs them. */
module RecordServices {
  import opened Common
  import opened Money
  import opened Tables
  import opened Records
  import Audit

  class RecordService {
    const db: Database

    constructor (db: Database)
      ensures this.db == db
    {
      this.db := db;
    }

    /** The checks before the transaction, in order, rewriting the currency as they go. */
    method Prepare(n: NewRecord) returns (r: Result<Record>)
      ensures CreateComplaint(n).Some? ==> r == Err(Validation(CreateComplaint(n).value))
      ensures CreateComplaint(n).None? ==> r == Ok(RowOf(n))
    {
      if n.kind != "income" && n.kind != "expense" {
        return Err(Validation("invalid type"));
      }
      if n.amount <= 0.0 {
        return Err(Validation("amount must be greater than zero"));
      }
      var currency := n.currency;
      if currency == "" {
        currency := "INR";
      } else if Upper(currency) !in CURRENCIES {
        return Err(Validation("invalid currency"));
      }
      currency := Upper(currency);
      UpperKeeps("INR");
      if Blank(n.category) {
        return Err(Validation("category is required"));
      }
      if n.date.None? {
        return Err(Validation("date is required"));
      }
      var kind := if n.kind == "income" then Income else Outlay;
      return Ok(Record(n.owner, Round(n.amount), currency, kind, n.category, n.date.value, n.notes, false));
    }

    /** The checks on an update map, which is rewritten on the way: the amount becomes a
        number, the currency upper case. What the rewritten map does to a row is what the
        original one asks for. */
    method Rewrite(c: RecordChanges) returns (r: Result<RecordChanges>)
      ensures UpdateComplaint(c).Some? ==> r == Err(Validation(UpdateComplaint(c).value))
      ensures UpdateComplaint(c).None? ==>
                && r.Ok? && UpdateComplaint(r.value).None?
                && forall row: Record :: Changed(row, r.value) == Changed(row, c)
    {
      var updates := c;
      if c.kind.Some? {
        if !c.kind.value.Text? || (c.kind.value.s != "income" && c.kind.value.s != "expense") {
          return Err(Validation("invalid type"));
        }
      }
      if c.amount.Some? {
        var amount := AmountOf(c.amount.value);
        if amount.None? || amount.value <= 0.0 {
          return Err(Validation("invalid amount"));
        }
        updates := updates.(amount := Some(Number(amount.value)));
      }
      if c.currency.Some? {
        if !c.currency.value.Text? || Upper(c.currency.value.s) !in CURRENCIES {
          return Err(Validation("invalid currency"));
        }
        UpperKeeps(Upper(c.currency.value.s));
        updates := updates.(currency := Some(Text(Upper(c.currency.value.s), None)));
      }
      return Ok(updates);
    }

    method Create(n: NewRecord, faultAt: nat) returns (r: Result<Id>)
      modifies db
      ensures (db.Contents(), r) == CreateRecord(old(db.Contents()), n, faultAt)
      ensures db.keys == old(db.keys)
    {
      var prepared := Prepare(n);
      if prepared.Err? {
        return Err(prepared.error);
      }
      var before := db.Contents();
      var id := FreshId(db);
      var event := FreshId(db);
      var row := prepared.value;
      if faultAt == 1 || n.owner !in db.users || id in db.records || !Fits(row.amount) {
        db.Rollback(before);
        return Err(Internal);
      }
      db.records := db.records[id := row];
      var logged := Audit.LogEvent(db, Audit.BuildEvent(event, "record", id, Action.Create), 2, faultAt);
      if !logged || faultAt == 4 {
        db.Rollback(before);
        return Err(Internal);
      }
      return Ok(id);
    }

    method Update(id: Id, changes: RecordChanges, faultAt: nat) returns (r: Result<Record>)
      modifies db
      ensures (db.Contents(), r) == UpdateRecord(old(db.Contents()), id, changes, faultAt)
      ensures db.keys == old(db.keys)
    {
      if faultAt == 1 {
        return Err(Internal);
      }
      if id !in db.records || db.records[id].deleted {
        return Err(NotFound);
      }
      var updates := Rewrite(changes);
      if updates.Err? {
        return Err(updates.error);
      }
      var before := db.Contents();
      var event := FreshId(db);
      var row := Changed(db.records[id], updates.value);
      if faultAt == 2 || !Fits(row.amount) {
        db.Rollback(before);
        return Err(Internal);
      }
      db.records := db.records[id := row];
      var logged := Audit.LogEvent(db, Audit.BuildEvent(event, "record", id, Action.Update), 3, faultAt);
      if !logged || faultAt == 5 {
        db.Rollback(before);
        return Err(Internal);
      }
      return if faultAt == 6 then Err(Internal) else Ok(row);
    }

    method Delete(id: Id, faultAt: nat) returns (r: Result<Id>)
      modifies db
      ensures (db.Contents(), r) == DeleteRecord(old(db.Contents()), id, faultAt)
      ensures db.keys == old(db.keys)
    {
      if faultAt == 1 {
        return Err(Internal);
      }
      if id !in db.records || db.records[id].deleted {
        return Err(NotFound);
      }
      var before := db.Contents();
      var event := FreshId(db);
      db.records := db.records[id := db.records[id].(deleted := true)];
      var logged := Audit.LogEvent(db, Audit.BuildEvent(event, "record", id, Action.Delete), 3, faultAt);
      if faultAt == 2 || !logged || faultAt == 5 {
        db.Rollback(before);
        return Err(Internal);
      }
      return Ok(id);
    }
  }
}
