/** Ledger transactions and the audit events that tell of them. */
module LedgerTrail {
  import opened Tables
  import Audit
  import Ledger

  const LEDGER := "ledger_transaction"

  function Transactions(entries: seq<LedgerEntry>): set<Id> {
    set e | e in entries :: e.txn
  }

  function Told(audit: seq<AuditEvent>): set<Id> {
    set e | e in audit && e.entityType == LEDGER :: e.entity
  }

  /** A bijection: every stored transaction has exactly one ledger event, and every ledger
      event tells of a stored transaction. */
  ghost predicate Matched(entries: seq<LedgerEntry>, audit: seq<AuditEvent>) {
    && Transactions(entries) == Told(audit)
    && (forall i, j | 0 <= i < j < |audit| && audit[i].entityType == LEDGER == audit[j].entityType ::
          audit[i].entity != audit[j].entity)
  }

  /** The entries stay and no ledger event is logged. */
  lemma OtherEventKeepsMatched(entries: seq<LedgerEntry>, audit: seq<AuditEvent>, after: seq<AuditEvent>)
    requires Matched(entries, audit)
    requires after == audit || exists e: AuditEvent :: e.entityType != LEDGER && after == audit + [e]
    ensures Matched(entries, after)
  {
    assert Told(after) == Told(audit);
  }

  lemma PostedTransactions(entries: seq<LedgerEntry>, txn: Id, req: Ledger.PostRequest)
    requires req.entries != []
    ensures Transactions(entries + Ledger.Stored(txn, req.description, req.entries)) == Transactions(entries) + {txn}
  {
    var rows := Ledger.Stored(txn, req.description, req.entries);
    assert rows[0] in entries + rows && rows[0].txn == txn;
    forall e | e in rows ensures e.txn == txn {
    }
    forall e | e in entries ensures e in entries + rows {
    }
  }

  /** A posting under a new transaction id and its event. */
  lemma PostingKeepsMatched(entries: seq<LedgerEntry>, audit: seq<AuditEvent>, txn: Id, event: Id,
                            req: Ledger.PostRequest)
    requires Matched(entries, audit) && txn !in Transactions(entries) && req.entries != []
    ensures Matched(entries + Ledger.Stored(txn, req.description, req.entries),
                    audit + [Audit.BuildEvent(event, LEDGER, txn, Create)])
  {
    PostedTransactions(entries, txn, req);
    var after := audit + [Audit.BuildEvent(event, LEDGER, txn, Create)];
    assert after[|audit|] in after && Told(after) == Told(audit) + {txn};
    forall i | 0 <= i < |audit| && audit[i].entityType == LEDGER ensures audit[i].entity != txn {
      assert audit[i].entity in Told(audit);
    }
  }
}
