/** What postings do to the books: rounding drift, exactness on four-decimal
    amounts, order independence, and the entry-by-entry reading. */
module LedgerFacts {
  import opened Common
  import opened Money
  import opened Tables
  import opened Ledger

  // ---- sums over entries, one entry at a time ----

  lemma NetAppend(es: seq<EntryRequest>, e: EntryRequest, id: Id, kind: AccountType)
    ensures Net(es + [e], id, kind)
         == Net(es, id, kind) + if e.account == id then Signed(kind, e.side, e.amount) else 0.0
  {
    assert (es + [e])[..|es|] == es;
  }

  lemma NetPrefix(es: seq<EntryRequest>, n: nat, id: Id, kind: AccountType)
    requires n < |es|
    ensures Net(es[..n + 1], id, kind)
         == Net(es[..n], id, kind) + if es[n].account == id then Signed(kind, es[n].side, es[n].amount) else 0.0
  {
    assert es[..n + 1] == es[..n] + [es[n]];
    NetAppend(es[..n], es[n], id, kind);
  }

  lemma TotalPrefix(es: seq<EntryRequest>, n: nat, side: Side)
    requires n < |es|
    ensures Total(es[..n + 1], side) == Total(es[..n], side) + if es[n].side == side then es[n].amount else 0.0
  {
    assert es[..n + 1][..n] == es[..n];
  }

  lemma StoredPrefix(txn: Id, description: string, es: seq<EntryRequest>, n: nat)
    requires n < |es|
    ensures Stored(txn, description, es[..n + 1])
         == Stored(txn, description, es[..n]) + [StoredEntry(txn, description, es[n])]
    ensures Created(txn, description, es[..n + 1])
         == Created(txn, description, es[..n]) + [CreatedFrom(txn, description, es[n])]
  {
    assert es[..n + 1][..n] == es[..n];
  }

  lemma {:induction false} NetUntouched(es: seq<EntryRequest>, id: Id, kind: AccountType)
    requires id !in Accounts(es)
    ensures Net(es, id, kind) == 0.0
  {
    if es != [] {
      var e := es[|es| - 1];
      assert e in es;
      assert Accounts(es[..|es| - 1]) <= Accounts(es);
      NetUntouched(es[..|es| - 1], id, kind);
    }
  }

  lemma {:induction false} StoredNetConcat(a: seq<LedgerEntry>, b: seq<LedgerEntry>, id: Id, kind: AccountType)
    ensures StoredNet(a + b, id, kind) == StoredNet(a, id, kind) + StoredNet(b, id, kind)
  {
    if b == [] {
      assert a + b == a;
    } else {
      assert (a + b)[..|a + b| - 1] == a + b[..|b| - 1];
      StoredNetConcat(a, b[..|b| - 1], id, kind);
    }
  }

  lemma {:induction false} StoredNetUntouched(entries: seq<LedgerEntry>, id: Id, kind: AccountType)
    requires forall e | e in entries :: e.account != id
    ensures StoredNet(entries, id, kind) == 0
  {
    if entries != [] {
      StoredNetUntouched(entries[..|entries| - 1], id, kind);
    }
  }

  // ---- rounding drift ----

  /** How many of the entries touch account `id`. */
  function Touches(es: seq<EntryRequest>, id: Id): nat {
    if es == [] then 0
    else Touches(es[..|es| - 1], id) + if es[|es| - 1].account == id then 1 else 0
  }

  predicate AllOnGrid(es: seq<EntryRequest>) {
    forall e | e in es :: OnGrid(e.amount)
  }

  lemma {:induction false} OneEntryDrift(e: EntryRequest, txn: Id, description: string, id: Id, kind: AccountType)
    ensures var d := 2.0 * (StoredNet([StoredEntry(txn, description, e)], id, kind) as real
                            - if e.account == id then Signed(kind, e.side, e.amount) else 0.0);
            && (if e.account == id then -1.0 <= d <= 1.0 else d == 0.0)
            && (OnGrid(e.amount) ==> d == 0.0)
  {
    var row := StoredEntry(txn, description, e);
    assert [row][..0] == [];
    RoundNear(e.amount);
    RoundExactIff(e.amount);
  }

  /** Stored entries against the exact sum: half a unit per entry, nothing on the grid. */
  lemma {:induction false} StoredNetDrift(txn: Id, description: string, es: seq<EntryRequest>, id: Id,
                                          kind: AccountType)
    ensures var d := 2.0 * (StoredNet(Stored(txn, description, es), id, kind) as real - Net(es, id, kind));
            && -(Touches(es, id) as real) <= d <= Touches(es, id) as real
            && (AllOnGrid(es) ==> d == 0.0)
  {
    if es != [] {
      var n := |es| - 1;
      assert es[..n + 1] == es;
      StoredPrefix(txn, description, es, n);
      StoredNetConcat(Stored(txn, description, es[..n]), [StoredEntry(txn, description, es[n])], id, kind);
      StoredNetDrift(txn, description, es[..n], id, kind);
      OneEntryDrift(es[n], txn, description, id, kind);
    }
  }

  /** An account touched k times ends within (k + 1) / 2 units of its old balance plus
      its stored entries; with amounts of at most four decimals it ends there exactly. */
  lemma SettledDrift(a: Account, id: Id, txn: Id, description: string, es: seq<EntryRequest>)
    ensures var d := Settled(a, id, es).balance - a.balance - StoredNet(Stored(txn, description, es), id, a.kind);
            && 2 * Abs(d) <= Touches(es, id) + 1
            && (AllOnGrid(es) ==> d == 0)
  {
    var net := Net(es, id, a.kind);
    var stored := StoredNet(Stored(txn, description, es), id, a.kind);
    StoredNetDrift(txn, description, es, id, a.kind);
    RoundNear(a.balance as real + net);
    if AllOnGrid(es) {
      assert a.balance as real + net == (a.balance + stored) as real;
      RoundWhole(a.balance + stored);
    }
  }

  /** Stored debits minus stored credits. */
  function StoredImbalance(entries: seq<LedgerEntry>): int {
    if entries == [] then 0
    else
      var e := entries[|entries| - 1];
      StoredImbalance(entries[..|entries| - 1])
      + match e.side case Debit => e.amount case Credit => -e.amount case OtherSide => 0
  }

  lemma {:induction false} ImbalanceConcat(a: seq<LedgerEntry>, b: seq<LedgerEntry>)
    ensures StoredImbalance(a + b) == StoredImbalance(a) + StoredImbalance(b)
  {
    if b == [] {
      assert a + b == a;
    } else {
      assert (a + b)[..|a + b| - 1] == a + b[..|b| - 1];
      ImbalanceConcat(a, b[..|b| - 1]);
    }
  }

  lemma {:induction false} ImbalanceDrift(txn: Id, description: string, es: seq<EntryRequest>)
    ensures var d := 2.0 * (StoredImbalance(Stored(txn, description, es)) as real
                            - (Total(es, Debit) - Total(es, Credit)));
            && -(|es| as real) <= d <= |es| as real
            && (AllOnGrid(es) ==> d == 0.0)
  {
    if es != [] {
      var n := |es| - 1;
      assert es[..n + 1] == es;
      StoredPrefix(txn, description, es, n);
      ImbalanceConcat(Stored(txn, description, es[..n]), [StoredEntry(txn, description, es[n])]);
      ImbalanceDrift(txn, description, es[..n]);
      RoundNear(es[n].amount);
      RoundExactIff(es[n].amount);
    }
  }

  /** A valid posting of n entries stores debits and credits that differ by at most
      n / 2 units, and by nothing when amounts have at most four decimals. */
  lemma PostingImbalance(txn: Id, req: PostRequest)
    requires Valid(req)
    ensures 2 * Abs(StoredImbalance(Stored(txn, req.description, req.entries))) <= |req.entries|
    ensures AllOnGrid(req.entries) ==> StoredImbalance(Stored(txn, req.description, req.entries)) == 0
  {
    ImbalanceDrift(txn, req.description, req.entries);
  }

  /** What rounding to four decimals adds to one side of a request. */
  function RoundingGain(es: seq<EntryRequest>, side: Side): real {
    if es == [] then 0.0
    else
      var e := es[|es| - 1];
      RoundingGain(es[..|es| - 1], side) + if e.side == side then Round(e.amount) as real - e.amount else 0.0
  }

  lemma {:induction false} ImbalanceIsGain(txn: Id, description: string, es: seq<EntryRequest>)
    ensures StoredImbalance(Stored(txn, description, es)) as real
         == Total(es, Debit) + RoundingGain(es, Debit) - Total(es, Credit) - RoundingGain(es, Credit)
  {
    if es != [] {
      var n := |es| - 1;
      assert es[..n + 1] == es;
      StoredPrefix(txn, description, es, n);
      ImbalanceConcat(Stored(txn, description, es[..n]), [StoredEntry(txn, description, es[n])]);
      ImbalanceIsGain(txn, description, es[..n]);
    }
  }

  /** Exactly when a valid request is stored with equal debits and credits: rounding adds
      the same to both sides. */
  lemma StoredBalancedIff(txn: Id, req: PostRequest)
    requires Valid(req)
    ensures StoredImbalance(Stored(txn, req.description, req.entries)) == 0
            <==> RoundingGain(req.entries, Debit) == RoundingGain(req.entries, Credit)
  {
    ImbalanceIsGain(txn, req.description, req.entries);
  }

  /** Beyond four decimals stored debits need not equal stored credits: two debits of
      half a unit against one credit of a unit are accepted and stored as 2 against 1. */
  lemma StoredDebitsMayExceedCredits(txn: Id, a: Id, b: Id) returns (req: PostRequest)
    ensures Valid(req) && !AllOnGrid(req.entries)
    ensures StoredImbalance(Stored(txn, req.description, req.entries)) == 1
  {
    var half := EntryRequest(a, Debit, 0.5, "");
    var one := EntryRequest(b, Credit, 1.0, "");
    req := PostRequest("", [half, half, one]);
    TotalOfThree(half, half, one, Debit);
    TotalOfThree(half, half, one, Credit);
    RoundWhole(1);
    assert half in req.entries && !OnGrid(half.amount) && Round(half.amount) == 1;
    var x, y, z := StoredEntry(txn, "", half), StoredEntry(txn, "", half), StoredEntry(txn, "", one);
    assert Stored(txn, "", req.entries) == [x, y, z];
    ImbalanceOfThree(x, y, z);
  }

  lemma TotalOfThree(x: EntryRequest, y: EntryRequest, z: EntryRequest, side: Side)
    ensures Total([x, y, z], side)
         == (if x.side == side then x.amount else 0.0) + (if y.side == side then y.amount else 0.0)
            + if z.side == side then z.amount else 0.0
  {
    var es := [x, y, z];
    TotalPrefix(es, 0, side);
    TotalPrefix(es, 1, side);
    TotalPrefix(es, 2, side);
    assert es[..3] == es && es[..0] == [];
  }

  lemma ImbalanceOfThree(x: LedgerEntry, y: LedgerEntry, z: LedgerEntry)
    requires x.side == Debit && y.side == Debit && z.side == Credit
    ensures StoredImbalance([x, y, z]) == x.amount + y.amount - z.amount
  {
    ImbalanceConcat([x], [y]);
    ImbalanceConcat([x] + [y], [z]);
    assert [x, y, z] == [x] + [y] + [z];
  }

  // ---- the order of entries does not matter ----

  lemma {:induction false} NetConcat(a: seq<EntryRequest>, b: seq<EntryRequest>, id: Id, kind: AccountType)
    ensures Net(a + b, id, kind) == Net(a, id, kind) + Net(b, id, kind)
  {
    if b == [] {
      assert a + b == a;
    } else {
      assert (a + b)[..|a + b| - 1] == a + b[..|b| - 1];
      NetConcat(a, b[..|b| - 1], id, kind);
    }
  }

  function Without(es: seq<EntryRequest>, j: nat): (rest: seq<EntryRequest>)
    requires j < |es|
    ensures |rest| == |es| - 1
  {
    es[..j] + es[j + 1..]
  }

  /** Any entry may be taken out and counted on its own. */
  lemma TakeOut(es: seq<EntryRequest>, j: nat, id: Id, kind: AccountType)
    requires j < |es|
    ensures Net(es, id, kind) == Net(Without(es, j), id, kind) + Net([es[j]], id, kind)
  {
    var before, e, after := es[..j], [es[j]], es[j + 1..];
    assert es == before + e + after;
    NetConcat(before + e, after, id, kind);
    NetConcat(before, e, id, kind);
    NetConcat(before, after, id, kind);
  }

  lemma WithoutOne(es: seq<EntryRequest>, j: nat)
    requires j < |es|
    ensures multiset(Without(es, j)) == multiset(es) - multiset{es[j]}
  {
    assert es == es[..j] + [es[j]] + es[j + 1..];
  }

  lemma {:induction false} NetPermutation(a: seq<EntryRequest>, b: seq<EntryRequest>, id: Id, kind: AccountType)
    requires multiset(a) == multiset(b)
    ensures Net(a, id, kind) == Net(b, id, kind)
    decreases |a|
  {
    if a == [] {
      assert |b| == |multiset(b)| == 0;
    } else {
      assert a[0] in multiset(b);
      var j :| 0 <= j < |b| && b[j] == a[0];
      TakeOut(a, 0, id, kind);
      TakeOut(b, j, id, kind);
      WithoutOne(a, 0);
      WithoutOne(b, j);
      NetPermutation(Without(a, 0), Without(b, j), id, kind);
    }
  }

  /** Any permutation of the entries, with any repetition of accounts, leaves the same
      balances. */
  lemma PostPermutation(b: Books, txn: Id, r1: PostRequest, r2: PostRequest)
    requires multiset(r1.entries) == multiset(r2.entries)
    ensures Post(b, txn, r1).accounts == Post(b, txn, r2).accounts
  {
    assert forall e :: e in multiset(r1.entries) <==> e in r1.entries;
    assert forall e :: e in multiset(r2.entries) <==> e in r2.entries;
    assert Accounts(r1.entries) == Accounts(r2.entries);
    forall id | id in b.accounts
      ensures Settled(b.accounts[id], id, r1.entries) == Settled(b.accounts[id], id, r2.entries)
    {
      NetPermutation(r1.entries, r2.entries, id, b.accounts[id].kind);
    }
  }

  // ---- the simple form: stored entries applied to the table one by one ----

  function ApplyEntry(accounts: map<Id, Account>, e: LedgerEntry): map<Id, Account> {
    if e.account in accounts then
      var a := accounts[e.account];
      accounts[e.account := a.(balance := a.balance + SignedUnits(a.kind, e.side, e.amount))]
    else accounts
  }

  function ApplyEntries(accounts: map<Id, Account>, entries: seq<LedgerEntry>): map<Id, Account> {
    if entries == [] then accounts
    else ApplyEntry(ApplyEntries(accounts, entries[..|entries| - 1]), entries[|entries| - 1])
  }

  lemma {:induction false} ApplyEntriesNet(accounts: map<Id, Account>, entries: seq<LedgerEntry>)
    ensures ApplyEntries(accounts, entries).Keys == accounts.Keys
    ensures forall id | id in accounts ::
              ApplyEntries(accounts, entries)[id]
              == accounts[id].(balance := accounts[id].balance + StoredNet(entries, id, accounts[id].kind))
  {
    if entries != [] {
      ApplyEntriesNet(accounts, entries[..|entries| - 1]);
    }
  }

  /** The working-copy form (dedupe, accumulate, write each account once) refines the
      simple one on four-decimal amounts: the same table as storing and applying the
      entries one at a time. */
  lemma WorkingCopyRefinesOneByOne(b: Books, txn: Id, req: PostRequest)
    requires AllOnGrid(req.entries)
    ensures Post(b, txn, req).accounts
         == ApplyEntries(b.accounts, Stored(txn, req.description, req.entries))
  {
    var rows := Stored(txn, req.description, req.entries);
    ApplyEntriesNet(b.accounts, rows);
    forall id | id in b.accounts
      ensures Post(b, txn, req).accounts[id] == ApplyEntries(b.accounts, rows)[id]
    {
      SettledDrift(b.accounts[id], id, txn, req.description, req.entries);
      if id !in Accounts(req.entries) {
        forall r | r in rows ensures r.account != id {
          var i :| 0 <= i < |rows| && rows[i] == r;
          assert req.entries[i] in req.entries;
        }
        StoredNetUntouched(rows, id, b.accounts[id].kind);
      }
    }
  }

  // ---- working copies: read, accumulate, write back ----

  /** Working balances and types right after the rows were read. */
  function ReadBalances(accounts: map<Id, Account>, ids: set<Id>): map<Id, real>
    requires ids <= accounts.Keys
  {
    map id | id in ids :: accounts[id].balance as real
  }

  function ReadKinds(accounts: map<Id, Account>, ids: set<Id>): map<Id, AccountType>
    requires ids <= accounts.Keys
  {
    map id | id in ids :: accounts[id].kind
  }

  function Accrued(start: map<Id, real>, kinds: map<Id, AccountType>, es: seq<EntryRequest>): map<Id, real>
    requires start.Keys == kinds.Keys
  {
    map id | id in start :: start[id] + Net(es, id, kinds[id])
  }

  /** The working balances of a whole posting. */
  function Worked(b: Books, req: PostRequest): map<Id, real>
    requires Accounts(req.entries) <= b.accounts.Keys
  {
    var ids := Accounts(req.entries);
    Accrued(ReadBalances(b.accounts, ids), ReadKinds(b.accounts, ids), req.entries)
  }

  lemma AccruedPrefix(start: map<Id, real>, kinds: map<Id, AccountType>, es: seq<EntryRequest>, n: nat)
    requires start.Keys == kinds.Keys && n < |es| && es[n].account in start
    ensures var m, e := Accrued(start, kinds, es[..n]), es[n];
            Accrued(start, kinds, es[..n + 1])
            == m[e.account := m[e.account] + Signed(kinds[e.account], e.side, e.amount)]
  {
    forall id | id in start { NetPrefix(es, n, id, kinds[id]); }
  }

  lemma RowsFitPrefix(es: seq<EntryRequest>, n: nat)
    requires n < |es|
    ensures RowsFit(es[..n + 1]) <==> RowsFit(es[..n]) && RowFits(es[n])
  {
    assert es[..n + 1] == es[..n] + [es[n]];
  }

  function Units(balances: map<Id, real>): map<Id, int> {
    map id | id in balances :: Round(balances[id])
  }

  predicate AllFit(units: map<Id, int>) {
    forall id | id in units :: Fits(units[id])
  }

  function WriteBack(accounts: map<Id, Account>, units: map<Id, int>): map<Id, Account> {
    map id | id in accounts ::
      if id in units then accounts[id].(balance := units[id]) else accounts[id]
  }

  lemma WorkedIsSettled(b: Books, req: PostRequest, id: Id)
    requires Accounts(req.entries) <= b.accounts.Keys && id in Accounts(req.entries)
    ensures id in Units(Worked(b, req))
    ensures Units(Worked(b, req))[id] == Settled(b.accounts[id], id, req.entries).balance
  {
  }

  /** Accumulating in working copies and writing them back is the posting. */
  lemma WriteBackIsPost(b: Books, txn: Id, req: PostRequest)
    requires Accounts(req.entries) <= b.accounts.Keys
    ensures WriteBack(b.accounts, Units(Worked(b, req))) == Post(b, txn, req).accounts
  {
    forall id | id in Accounts(req.entries) { WorkedIsSettled(b, req, id); }
  }

  /** The writes all fit exactly when the posting is storable. */
  lemma WorkedFits(b: Books, req: PostRequest)
    requires Accounts(req.entries) <= b.accounts.Keys
    ensures Storable(b, req) <==> RowsFit(req.entries) && AllFit(Units(Worked(b, req)))
  {
    forall id | id in Accounts(req.entries) { WorkedIsSettled(b, req, id); }
  }
}
