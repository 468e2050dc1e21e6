/** services/audit_service.go: every event is written together with its outbox row. */
module Audit {
  import opened Tables

  /** BuildAuditEvent: the constructor, without the free-text fields. */
  function BuildEvent(id: Id, entityType: string, entity: Id, action: Action): AuditEvent {
    AuditEvent(id, entityType, entity, action)
  }

  function Logged(s: State, event: AuditEvent): State {
    s.(audit := s.audit + [event], outbox := s.outbox + [OutboxRow(event.id, false)])
  }

  /** LogEvent runs as statements `at` and `at + 1` of the surrounding transaction;
      `faultAt` is the statement that fails. After a failure the caller rolls back. */
  method LogEvent(db: Database, event: AuditEvent, at: nat, faultAt: nat) returns (ok: bool)
    modifies db`audit, db`outbox
    ensures ok <==> faultAt != at && faultAt != at + 1
    ensures ok ==> db.Contents() == Logged(old(db.Contents()), event)
  {
    if faultAt == at {
      return false;
    }
    db.audit := db.audit + [event];
    if faultAt == at + 1 {
      return false;
    }
    db.outbox := db.outbox + [OutboxRow(event.id, false)];
    return true;
  }

  // ---- the pairing that LogEvent keeps ----

  /** Row i of the outbox belongs to event i of the trail, and no event id repeats:
      a bijection that also preserves creation order. */
  ghost predicate Paired(audit: seq<AuditEvent>, outbox: seq<OutboxRow>) {
    && |audit| == |outbox|
    && (forall i | 0 <= i < |audit| :: outbox[i].event == audit[i].id)
    && (forall i, j | 0 <= i < j < |audit| :: audit[i].id != audit[j].id)
  }

  /** Event ids come from the supply. */
  ghost predicate Issued(audit: seq<AuditEvent>, next: Id) {
    forall i | 0 <= i < |audit| :: audit[i].id < next
  }

  lemma LoggedKeepsPairing(s: State, event: AuditEvent)
    requires Paired(s.audit, s.outbox) && Issued(s.audit, event.id)
    ensures Paired(Logged(s, event).audit, Logged(s, event).outbox)
    ensures Issued(Logged(s, event).audit, event.id + 1)
  {
  }
}
