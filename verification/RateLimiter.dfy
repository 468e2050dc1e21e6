/** middleware/rate_limiter.go: one token bucket per client address, kept in a table
    whose idle entries are evicted. A request costs 0.6 s of credit, credit grows with
    the clock and is capped at 60 s: 100 requests per minute, bursts of 100. */
module RateLimiter {
  import opened Common

  type Time = nat

  const COST: nat := 600_000_000
  const FULL: nat := 60_000_000_000
  const TTL: nat := 600_000_000_000

  // ---- one bucket ----

  /** credit as of `last`; denied requests leave the bucket alone. */
  datatype Bucket = Bucket(credit: nat, last: Time)

  function Min(a: nat, b: nat): nat {
    if a <= b then a else b
  }

  function CreditAt(b: Bucket, now: Time): nat {
    Min(FULL, b.credit + if now >= b.last then now - b.last else 0)
  }

  function NewBucket(now: Time): Bucket {
    Bucket(FULL, now)
  }

  function Allow(b: Bucket, now: Time): (Bucket, bool) {
    var c := CreditAt(b, now);
    if c >= COST then (Bucket(c - COST, now), true) else (b, false)
  }

  // ---- the table ----

  datatype Entry = Entry(bucket: Bucket, lastSeen: Time)

  type Table = map<string, Entry>

  /** getLimiter: the stored entry, its lastSeen refreshed, or a new full bucket. */
  function Touched(t: Table, ip: string, now: Time): Entry {
    Entry(if ip in t then t[ip].bucket else NewBucket(now), now)
  }

  function Request(t: Table, ip: string, now: Time): (Table, bool) {
    var e := Touched(t, ip, now);
    var (b, ok) := Allow(e.bucket, now);
    (t[ip := e.(bucket := b)], ok)
  }

  /** Entries idle for more than ten minutes go. */
  predicate Stale(e: Entry, now: Time) {
    now - e.lastSeen > TTL
  }

  function Evict(t: Table, now: Time): Table {
    map ip | ip in t && !Stale(t[ip], now) :: t[ip]
  }

  // ---- eviction is invisible ----

  datatype Event = Ask(ip: string, at: Time) | Sweep(at: Time)

  predicate Monotone(from: Time, es: seq<Event>)
    decreases |es|
  {
    es == [] || (from <= es[0].at && Monotone(es[0].at, es[1..]))
  }

  function Step(t: Table, e: Event, evicting: bool): (Table, Option<bool>) {
    match e
    case Ask(ip, at) => var (t', ok) := Request(t, ip, at); (t', Some(ok))
    case Sweep(at) => (if evicting then Evict(t, at) else t, None)
  }

  /** The decisions along a run. */
  function Decisions(t: Table, es: seq<Event>, evicting: bool): (ds: seq<Option<bool>>)
    ensures |ds| == |es|
    decreases |es|
  {
    if es == [] then []
    else
      var (t', d) := Step(t, es[0], evicting);
      [d] + Decisions(t', es[1..], evicting)
  }

  /** The real table against one that never forgets: same entry, or forgotten when the
      bucket had long been full again. */
  ghost predicate Agree(t: Table, ideal: Table, now: Time) {
    && t.Keys <= ideal.Keys
    && (forall ip | ip in ideal ::
          && ideal[ip].bucket.last <= ideal[ip].lastSeen <= now
          && if ip in t then t[ip] == ideal[ip] else ideal[ip].lastSeen + TTL < now)
  }

  lemma StepAgrees(t: Table, ideal: Table, now: Time, e: Event)
    requires Agree(t, ideal, now) && now <= e.at
    ensures Step(t, e, true).1 == Step(ideal, e, false).1
    ensures Agree(Step(t, e, true).0, Step(ideal, e, false).0, e.at)
  {
  }

  /** On every sequence of requests and sweeps the evicting table takes the decisions of
      the table that never forgets. */
  lemma {:induction false} EvictionIsInvisible(t: Table, ideal: Table, now: Time, es: seq<Event>)
    requires Agree(t, ideal, now) && Monotone(now, es)
    ensures Decisions(t, es, true) == Decisions(ideal, es, false)
    decreases |es|
  {
    if es != [] {
      StepAgrees(t, ideal, now, es[0]);
      EvictionIsInvisible(Step(t, es[0], true).0, Step(ideal, es[0], false).0, es[0].at, es[1..]);
    }
  }

  // ---- what the bucket decides, without the bucket ----

  predicate Rising(ts: seq<Time>) {
    forall i, j | 0 <= i < j < |ts| :: ts[i] <= ts[j]
  }

  /** One more request at `now` respects the rate over every window that starts at an
      earlier admitted request and over the burst. */
  predicate Conforms(ts: seq<Time>, now: Time) {
    forall i | 0 <= i < |ts| :: (|ts| - i + 1) * COST <= FULL + (now - ts[i])
  }

  /** The bucket after the admitted requests `ts`. */
  function After(ts: seq<Time>, first: Time): Bucket {
    if ts == [] then NewBucket(first)
    else Allow(After(ts[..|ts| - 1], first), ts[|ts| - 1]).0
  }

  /** All of `ts` were admissible in turn. */
  predicate AllAdmitted(ts: seq<Time>, first: Time) {
    ts == [] ||
    (AllAdmitted(ts[..|ts| - 1], first) && Allow(After(ts[..|ts| - 1], first), ts[|ts| - 1]).1)
  }

  lemma CreditAfterOne(ts: seq<Time>, first: Time, now: Time)
    requires ts != [] && AllAdmitted(ts, first) && ts[|ts| - 1] <= now
    ensures var t := ts[|ts| - 1];
            var before := CreditAt(After(ts[..|ts| - 1], first), t);
            && before >= COST && After(ts, first) == Bucket(before - COST, t)
            && CreditAt(After(ts, first), now) == Min(FULL, before - COST + (now - t))
  {
  }

  /** No window leaves less than the credit. */
  lemma {:induction false} CreditWithinWindows(ts: seq<Time>, first: Time, now: Time, i: nat)
    requires i < |ts| && Rising(ts) && AllAdmitted(ts, first) && ts[|ts| - 1] <= now
    ensures CreditAt(After(ts, first), now) + (|ts| - i) * COST <= FULL + (now - ts[i])
  {
    CreditAfterOne(ts, first, now);
    var n := |ts| - 1;
    if i < n {
      CreditWithinWindows(ts[..n], first, ts[n], i);
    }
  }

  /** The credit is what the tightest window leaves. */
  lemma {:induction false} CreditIsTightestWindow(ts: seq<Time>, first: Time, now: Time)
    requires Rising(ts) && AllAdmitted(ts, first) && (ts != [] ==> ts[|ts| - 1] <= now)
    ensures var c := CreditAt(After(ts, first), now);
            c == FULL || exists i | 0 <= i < |ts| :: c + (|ts| - i) * COST == FULL + (now - ts[i])
  {
    if ts != [] {
      var n := |ts| - 1;
      var before, c := CreditAt(After(ts[..n], first), ts[n]), CreditAt(After(ts, first), now);
      CreditIsTightestWindow(ts[..n], first, ts[n]);
      CreditAfterOne(ts, first, now);
      if c != FULL {
        var i := n;
        if before != FULL {
          i :| 0 <= i < n && before + (n - i) * COST == FULL + (ts[n] - ts[..n][i]);
        }
        assert c + (|ts| - i) * COST == FULL + (now - ts[i]);
      }
    }
  }

  /** A request is admitted exactly when it conforms: the bucket is the most generous
      policy that never exceeds the rate in any window. */
  lemma AllowIffConforms(ts: seq<Time>, first: Time, now: Time)
    requires Rising(ts) && AllAdmitted(ts, first)
    requires first <= now && (ts != [] ==> first <= ts[0] && ts[|ts| - 1] <= now)
    ensures Allow(After(ts, first), now).1 <==> Conforms(ts, now)
  {
    CreditIsTightestWindow(ts, first, now);
    var c := CreditAt(After(ts, first), now);
    if c >= COST {
      forall i | 0 <= i < |ts| ensures (|ts| - i + 1) * COST <= FULL + (now - ts[i]) {
        CreditWithinWindows(ts, first, now, i);
      }
    } else {
      var i :| 0 <= i < |ts| && c + (|ts| - i) * COST == FULL + (now - ts[i]);
      assert (|ts| - i + 1) * COST > FULL + (now - ts[i]);
    }
  }

  // ---- the whole table refines a log of admitted requests ----

  type Log = map<string, seq<Time>>

  function LogOf(log: Log, ip: string): seq<Time> {
    if ip in log then log[ip] else []
  }

  function PolicyStep(log: Log, e: Event): (Log, Option<bool>) {
    match e
    case Ask(ip, at) =>
      if Conforms(LogOf(log, ip), at) then (log[ip := LogOf(log, ip) + [at]], Some(true)) else (log, Some(false))
    case Sweep(_) => (log, None)
  }

  /** The reference limiter: remembers every admitted request and admits what conforms. */
  function Policy(log: Log, es: seq<Event>): (ds: seq<Option<bool>>)
    ensures |ds| == |es|
    decreases |es|
  {
    if es == [] then []
    else
      var (log', d) := PolicyStep(log, es[0]);
      [d] + Policy(log', es[1..])
  }

  function LogAfter(log: Log, es: seq<Event>): Log
    decreases |es|
  {
    if es == [] then log else LogAfter(PolicyStep(log, es[0]).0, es[1..])
  }

  ghost predicate Logged(ts: seq<Time>, now: Time) {
    ts != [] && Rising(ts) && AllAdmitted(ts, ts[0]) && ts[|ts| - 1] <= now
  }

  ghost predicate Tracks(ideal: Table, log: Log, now: Time) {
    && ideal.Keys == log.Keys
    && forall ip | ip in ideal :: Logged(log[ip], now) && ideal[ip].bucket == After(log[ip], log[ip][0])
  }

  lemma StepTracks(ideal: Table, log: Log, now: Time, e: Event)
    requires Tracks(ideal, log, now) && now <= e.at
    ensures Step(ideal, e, false).1 == PolicyStep(log, e).1
    ensures Tracks(Step(ideal, e, false).0, PolicyStep(log, e).0, e.at)
  {
    if e.Ask? {
      OneMoreLogged(LogOf(log, e.ip), now, e.at);
    }
  }

  /** Asking once more, for one address. */
  lemma {:induction false} OneMoreLogged(ts: seq<Time>, now: Time, at: Time)
    requires (ts == [] || Logged(ts, now)) && now <= at
    ensures var first := if ts == [] then at else ts[0];
            var (b, ok) := Allow(After(ts, first), at);
            && (ok <==> Conforms(ts, at))
            && (ok ==> Logged(ts + [at], at) && b == After(ts + [at], first))
            && (!ok ==> b == After(ts, first))
  {
    var first := if ts == [] then at else ts[0];
    AllowIffConforms(ts, first, at);
    var more := ts + [at];
    assert more[..|more| - 1] == ts && more[0] == first;
  }

  lemma {:induction false} IdealRefinesPolicy(ideal: Table, log: Log, now: Time, es: seq<Event>)
    requires Tracks(ideal, log, now) && Monotone(now, es)
    ensures Decisions(ideal, es, false) == Policy(log, es)
    decreases |es|
  {
    if es != [] {
      StepTracks(ideal, log, now, es[0]);
      IdealRefinesPolicy(Step(ideal, es[0], false).0, PolicyStep(log, es[0]).0, es[0].at, es[1..]);
    }
  }

  /** From an empty table, whatever is evicted in between, every request of every address
      is decided as the reference limiter decides it. */
  lemma LimiterIsExact(es: seq<Event>)
    requires Monotone(0, es)
    ensures Decisions(map[], es, true) == Policy(map[], es)
  {
    EvictionIsInvisible(map[], map[], 0, es);
    IdealRefinesPolicy(map[], map[], 0, es);
  }

  ghost predicate WithinRate(ts: seq<Time>) {
    forall i, j | 0 <= i <= j < |ts| :: ts[i] <= ts[j] && j - i + 1 <= 100 + (ts[j] - ts[i]) / COST
  }

  ghost predicate AllWithinRate(log: Log, now: Time) {
    forall ip | ip in log :: WithinRate(log[ip]) && forall t | t in log[ip] :: t <= now
  }

  function EndOf(now: Time, es: seq<Event>): Time {
    if es == [] then now else es[|es| - 1].at
  }

  lemma PolicyStepKeepsRate(log: Log, now: Time, e: Event)
    requires now <= e.at && AllWithinRate(log, now)
    ensures AllWithinRate(PolicyStep(log, e).0, e.at)
  {
    if e.Ask? && Conforms(LogOf(log, e.ip), e.at) {
      var ts := LogOf(log, e.ip);
      var more := ts + [e.at];
      forall i, j | 0 <= i <= j < |more|
        ensures more[i] <= more[j] && j - i + 1 <= 100 + (more[j] - more[i]) / COST
      {
        if j < |ts| {
          assert more[i] == ts[i] && more[j] == ts[j];
        } else if i < |ts| {
          assert more[i] == ts[i] && ts[i] in ts;
          assert (|ts| - i + 1) * COST <= FULL + (e.at - ts[i]);
        }
      }
    }
  }

  /** The reference limiter's log stays within the rate. */
  lemma {:induction false} LogStaysWithinRate(log: Log, now: Time, es: seq<Event>)
    requires Monotone(now, es) && AllWithinRate(log, now)
    ensures AllWithinRate(LogAfter(log, es), EndOf(now, es))
    decreases |es|
  {
    if es != [] {
      PolicyStepKeepsRate(log, now, es[0]);
      LogStaysWithinRate(PolicyStep(log, es[0]).0, es[0].at, es[1..]);
      assert EndOf(es[0].at, es[1..]) == EndOf(now, es);
    }
  }

  function TimeOf(e: Event, d: Option<bool>, ip: string): seq<Time> {
    if e.Ask? && e.ip == ip && d == Some(true) then [e.at] else []
  }

  /** When requests of an address were admitted, read off the decisions. */
  function Times(es: seq<Event>, ds: seq<Option<bool>>, ip: string): seq<Time>
    requires |ds| == |es|
    decreases |es|
  {
    if es == [] then [] else TimeOf(es[0], ds[0], ip) + Times(es[1..], ds[1..], ip)
  }

  lemma TimesHead(es: seq<Event>, d: Option<bool>, ds: seq<Option<bool>>, ip: string)
    requires |es| == |ds| + 1
    ensures Times(es, [d] + ds, ip) == TimeOf(es[0], d, ip) + Times(es[1..], ds, ip)
  {
    assert ([d] + ds)[1..] == ds;
  }

  lemma LoggedNow(log: Log, e: Event, ip: string)
    ensures LogOf(PolicyStep(log, e).0, ip) == LogOf(log, ip) + TimeOf(e, PolicyStep(log, e).1, ip)
  {
  }

  /** The log grows by exactly the admitted requests. */
  lemma {:induction false} LogIsTimes(log: Log, es: seq<Event>, ip: string)
    ensures LogOf(LogAfter(log, es), ip) == LogOf(log, ip) + Times(es, Policy(log, es), ip)
    decreases |es|
  {
    if es != [] {
      var (log', d) := PolicyStep(log, es[0]);
      LogIsTimes(log', es[1..], ip);
      LoggedNow(log, es[0], ip);
      TimesHead(es, d, Policy(log', es[1..]), ip);
      Associative(LogOf(log, ip), TimeOf(es[0], d, ip), Times(es[1..], Policy(log', es[1..]), ip));
    }
  }

  lemma Associative(a: seq<Time>, b: seq<Time>, c: seq<Time>)
    ensures (a + b) + c == a + (b + c)
  {
  }

  /** Over every run of the evicting table, any window admits at most 100 requests of an
      address plus one per 0.6 s of its length, across every eviction. */
  lemma WindowsAreBounded(es: seq<Event>, ip: string)
    requires Monotone(0, es)
    ensures WithinRate(Times(es, Decisions(map[], es, true), ip))
  {
    LimiterIsExact(es);
    LogStaysWithinRate(map[], 0, es);
    LogIsTimes(map[], es, ip);
    assert LogOf(LogAfter(map[], es), ip) == Times(es, Policy(map[], es), ip);
  }

  // ---- the constants, as clients meet them ----

  /** The table after n requests of an address at one instant. */
  function Burst(t: Table, ip: string, now: Time, n: nat): Table {
    if n == 0 then t else Request(Burst(t, ip, now, n - 1), ip, now).0
  }

  lemma {:induction false} BurstBucket(t: Table, ip: string, now: Time, n: nat)
    requires ip !in t && 0 < n <= 100
    ensures ip in Burst(t, ip, now, n)
    ensures Burst(t, ip, now, n)[ip] == Entry(Bucket(60_000_000_000 - n * 600_000_000, now), now)
    ensures forall other | other in t :: other in Burst(t, ip, now, n) && Burst(t, ip, now, n)[other] == t[other]
  {
    if n > 1 {
      BurstBucket(t, ip, now, n - 1);
    } else {
      assert Burst(t, ip, now, 0) == t;
    }
  }

  /** An address the table does not know gets exactly 100 requests at one instant, and the
      next one exactly when 0.6 s have passed. */
  lemma FreshAddressGetsBurst(t: Table, ip: string, now: Time, n: nat, later: nat)
    requires ip !in t && n <= 100
    ensures Request(Burst(t, ip, now, n), ip, now).1 <==> n < 100
    ensures Request(Burst(t, ip, now, 100), ip, now + later).1 <==> later >= 600_000_000
  {
    if n > 0 {
      BurstBucket(t, ip, now, n);
    }
    BurstBucket(t, ip, now, 100);
  }

  /** A sweep forgets exactly the addresses idle for more than ten minutes. */
  lemma EvictIsExact(t: Table, now: Time, ip: string)
    ensures ip in Evict(t, now) <==> ip in t && now - t[ip].lastSeen <= 600_000_000_000
    ensures ip in Evict(t, now) ==> Evict(t, now)[ip] == t[ip]
  {
  }

  /** A request touches its own address only and notes when it came. */
  lemma RequestIsLocal(t: Table, ip: string, now: Time, other: string)
    requires other != ip
    ensures var t' := Request(t, ip, now).0;
            && (other in t' <==> other in t) && (other in t ==> t'[other] == t[other])
            && ip in t' && t'[ip].lastSeen == now
  {
  }

  // ---- the middleware ----

  /** rate.Limiter. */
  class Limiter {
    var credit: nat
    var last: Time

    constructor (now: Time)
      ensures Bucket(credit, last) == NewBucket(now)
    {
      credit, last := FULL, now;
    }

    method TakeOne(now: Time) returns (ok: bool)
      modifies this
      ensures (Bucket(credit, last), ok) == Allow(old(Bucket(credit, last)), now)
    {
      var c := CreditAt(Bucket(credit, last), now);
      ok := c >= COST;
      if ok {
        credit, last := c - COST, now;
      }
    }
  }

  class RateLimitEntry {
    const limiter: Limiter
    var lastSeen: Time

    constructor (limiter: Limiter, lastSeen: Time)
      ensures this.limiter == limiter && this.lastSeen == lastSeen
    {
      this.limiter, this.lastSeen := limiter, lastSeen;
    }

    ghost function Value(): Entry
      reads this, limiter
    {
      Entry(Bucket(limiter.credit, limiter.last), lastSeen)
    }
  }

  class RateLimiterTable {
    var limiters: map<string, RateLimitEntry>

    ghost predicate Valid()
      reads this
    {
      forall a, b | a in limiters && b in limiters && a != b ::
        limiters[a] != limiters[b] && limiters[a].limiter != limiters[b].limiter
    }

    ghost function Entries(): set<object>
      reads this
    {
      (set ip | ip in limiters :: limiters[ip]) + (set ip | ip in limiters :: limiters[ip].limiter)
    }

    ghost function Contents(): Table
      reads this, Entries()
    {
      map ip | ip in limiters :: limiters[ip].Value()
    }

    constructor ()
      ensures Valid() && Contents() == map[]
    {
      limiters := map[];
    }

    /** LoadOrStore: refresh lastSeen of a stored entry, or store the new one. */
    method GetLimiter(ip: string, now: Time) returns (limiter: Limiter)
      requires Valid()
      modifies this, Entries()
      ensures Valid() && fresh(Entries() - old(Entries()))
      ensures ip in limiters && limiter == limiters[ip].limiter
      ensures fresh(limiter) || limiter in old(Entries())
      ensures Contents() == old(Contents())[ip := Touched(old(Contents()), ip, now)]
    {
      if ip in limiters {
        var existing := limiters[ip];
        existing.lastSeen := now;
        return existing.limiter;
      }
      limiter := new Limiter(now);
      var entry := new RateLimitEntry(limiter, now);
      limiters := limiters[ip := entry];
    }

    /** limiter.Allow() touches one bucket of the table. */
    method AllowFrom(limiter: Limiter, ghost ip: string, now: Time) returns (ok: bool)
      requires Valid() && ip in limiters && limiter == limiters[ip].limiter
      modifies limiter
      ensures var e := old(Contents())[ip];
              && ok == Allow(e.bucket, now).1
              && Contents() == old(Contents())[ip := e.(bucket := Allow(e.bucket, now).0)]
    {
      ghost var before := Contents();
      ok := limiter.TakeOne(now);
      assert forall x | x in limiters && x != ip :: limiters[x].Value() == before[x];
    }

    method Handle(ip: string, now: Time) returns (ok: bool)
      requires Valid()
      modifies this, Entries()
      ensures Valid() && fresh(Entries() - old(Entries()))
      ensures (Contents(), ok) == Request(old(Contents()), ip, now)
    {
      ghost var before := Contents();
      var limiter := GetLimiter(ip, now);
      ok := AllowFrom(limiter, ip, now);
      TwoUpdates(before, ip, now);
    }

    lemma TwoUpdates(t: Table, ip: string, now: Time)
      ensures var e := Touched(t, ip, now);
              var b := Allow(e.bucket, now).0;
              Request(t, ip, now).0 == t[ip := e][ip := e.(bucket := b)]
    {
      var e := Touched(t, ip, now);
      var b := Allow(e.bucket, now).0;
      assert t[ip := e][ip := e.(bucket := b)] == t[ip := e.(bucket := b)];
    }

    /** One tick of the eviction loop: Range over the map, deleting stale entries. */
    method EvictStale(now: Time)
      requires Valid()
      modifies this
      ensures Valid() && Contents() == Evict(old(Contents()), now)
    {
      ghost var before := Contents();
      var pending := limiters.Keys;
      while pending != {}
        invariant Valid() && pending <= limiters.Keys
        invariant limiters.Keys == set ip | ip in before && (ip in pending || !Stale(before[ip], now))
        invariant forall ip | ip in limiters :: ip in old(limiters) && limiters[ip] == old(limiters[ip])
        decreases |pending|
      {
        var ip :| ip in pending;
        if now - limiters[ip].lastSeen > TTL {
          limiters := limiters - {ip};
        }
        pending := pending - {ip};
      }
    }
  }
}
