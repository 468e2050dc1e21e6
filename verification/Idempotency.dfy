/** middleware/idempotency.go: a response cache in front of any handler. Lookup is by
    key alone; a row lives for 24 hours. */
module Idempotency {
  import opened Common
  import opened Tables

  const DAY: nat := 24 * 3600 * 1_000_000_000

  datatype Verb = GET | POST | PUT | DELETE | OTHER

  /** credential is the Authorization header, user what authentication made of it; body
      is None when it cannot be read. */
  datatype Request = Request(verb: Verb, path: string, key: string, credential: string, user: Option<Id>,
                             body: Option<string>)

  /** What a handler writes: at most one status line and any number of body chunks. */
  datatype Output = Output(status: Option<int>, chunks: seq<string>)

  datatype Reply = Reply(code: int, body: string)

  function Joined(chunks: seq<string>): string {
    if chunks == [] then "" else Joined(chunks[..|chunks| - 1]) + chunks[|chunks| - 1]
  }

  /** Without a status line the reply is a 200. */
  function Sent(o: Output): Reply {
    Reply(if o.status.Some? then o.status.value else 200, Joined(o.chunks))
  }

  type Handler<!S> = (S, Request) -> (S, Output)

  // ---- one request ----

  predicate Covered(r: Request) {
    (r.verb == POST || r.verb == PUT || r.verb == DELETE) && r.key != ""
  }

  /** The verbs that change something. */
  predicate Mutating(r: Request) {
    r.verb in {POST, PUT, DELETE}
  }

  lemma CoveredIff(r: Request)
    ensures Covered(r) <==> r.verb in {POST, PUT, DELETE} && r.key != ""
  {
  }

  predicate LiveKey(keys: map<string, KeyRow>, key: string, now: Time) {
    key in keys && keys[key].expires > now
  }

  /** The request is answered from the table. A lookup query that fails for any reason
      counts as a miss. */
  predicate Hit(keys: map<string, KeyRow>, r: Request, now: Time, lookupOk: bool) {
    Covered(r) && r.body.Some? && lookupOk && LiveKey(keys, r.key, now)
  }

  const UNREADABLE := Reply(400, "failed to read request body")
  const MISMATCH := Reply(422, "idempotency key already used with a different request body")

  function CachedReply(row: KeyRow, r: Request): Reply
    requires r.body.Some?
  {
    if row.hash != Digest(r.body.value) then MISMATCH else Reply(row.code, row.body)
  }

  /** Create fails on a taken primary key, live or not, and `storeOk` is false when the
      database refuses; neither failure is reported. */
  function Store(keys: map<string, KeyRow>, r: Request, reply: Reply, now: Time, storeOk: bool): map<string, KeyRow>
    requires r.body.Some?
  {
    if storeOk && r.key !in keys then
      keys[r.key := KeyRow(r.user, Digest(r.body.value), reply.code, reply.body, now + DAY)]
    else keys
  }

  datatype Served<!S> = Served(state: S, keys: map<string, KeyRow>, reply: Reply)

  function Serve<S>(h: Handler<S>, s: S, keys: map<string, KeyRow>, r: Request, now: Time, lookupOk: bool,
                    storeOk: bool): Served<S>
  {
    if !Covered(r) then
      var (t, o) := h(s, r);
      Served(t, keys, Sent(o))
    else if r.body.None? then Served(s, keys, UNREADABLE)
    else if lookupOk && LiveKey(keys, r.key, now) then Served(s, keys, CachedReply(keys[r.key], r))
    else
      var (t, o) := h(s, r);
      Served(t, Store(keys, r, Sent(o), now, storeOk), Sent(o))
  }

  /** cleanupExpiredIdempotencyKeys. */
  function Clean(keys: map<string, KeyRow>, now: Time): map<string, KeyRow> {
    map k | k in keys && !(keys[k].expires < now) :: keys[k]
  }

  /** The cleanup never removes a row that a lookup, now or later, would match. */
  lemma CleanKeepsLive(keys: map<string, KeyRow>, now: Time, key: string, later: Time)
    requires now <= later
    ensures LiveKey(Clean(keys, now), key, later) <==> LiveKey(keys, key, later)
    ensures LiveKey(keys, key, later) ==> Clean(keys, now)[key] == keys[key]
  {
  }

  /** Exactly the rows past their expiry go. */
  lemma CleanIsExact(keys: map<string, KeyRow>, now: Time, key: string)
    ensures key in Clean(keys, now) <==> key in keys && !(keys[key].expires < now)
    ensures key in Clean(keys, now) ==> Clean(keys, now)[key] == keys[key]
  {
  }

  /** Any other verb, and any request without a key, gets the handler's own state and
      reply, and the key table is left alone. */
  lemma OtherRequestsPassThrough<S>(h: Handler<S>, s: S, keys: map<string, KeyRow>, r: Request, now: Time,
                                    lookupOk: bool, storeOk: bool)
    requires r.verb == GET || r.verb == OTHER || r.key == ""
    ensures Serve(h, s, keys, r, now, lookupOk, storeOk) == Served(h(s, r).0, keys, Sent(h(s, r).1))
  {
  }

  lemma {:induction false} JoinedConcat(a: seq<string>, b: seq<string>)
    ensures Joined(a + b) == Joined(a) + Joined(b)
  {
    if b == [] {
      assert a + b == a;
    } else {
      assert (a + b)[..|a + b| - 1] == a + b[..|b| - 1];
      JoinedConcat(a, b[..|b| - 1]);
    }
  }

  /** The captured reply: the status set, 200 if none, and the chunks in order. */
  lemma CapturedReply(status: Option<int>, first: string, rest: seq<string>)
    ensures Sent(Output(status, [first] + rest)).code == if status.Some? then status.value else 200
    ensures Sent(Output(status, [first] + rest)).body == first + Sent(Output(status, rest)).body
    ensures Sent(Output(status, [])).body == ""
  {
    JoinedConcat([first], rest);
    assert [first][..0] == [];
  }

  // ---- runs, one request at a time ----

  datatype Event = Ask(r: Request, now: Time, lookupOk: bool, storeOk: bool) | Sweep(now: Time)

  function Step<S>(h: Handler<S>, s: S, keys: map<string, KeyRow>, e: Event): (S, map<string, KeyRow>) {
    match e
    case Ask(r, now, lookupOk, storeOk) => var x := Serve(h, s, keys, r, now, lookupOk, storeOk); (x.state, x.keys)
    case Sweep(now) => (s, Clean(keys, now))
  }

  function Run<S>(h: Handler<S>, s: S, keys: map<string, KeyRow>, es: seq<Event>): (S, map<string, KeyRow>)
    decreases |es|
  {
    if es == [] then (s, keys)
    else
      var (t, k) := Step(h, s, keys, es[0]);
      Run(h, t, k, es[1..])
  }

  /** The run without the requests answered from the table. */
  function Erased<S>(h: Handler<S>, s: S, keys: map<string, KeyRow>, es: seq<Event>): seq<Event>
    decreases |es|
  {
    if es == [] then []
    else
      var (t, k) := Step(h, s, keys, es[0]);
      var rest := Erased(h, t, k, es[1..]);
      if es[0].Ask? && Hit(keys, es[0].r, es[0].now, es[0].lookupOk) then rest else [es[0]] + rest
  }

  /** The handler alone, without any cache. */
  function Bare<S>(h: Handler<S>, s: S, rs: seq<Request>): S
    decreases |rs|
  {
    if rs == [] then s else Bare(h, h(s, rs[0]).0, rs[1..])
  }

  /** The requests of an event list that have a readable body or need none. */
  function Requests(es: seq<Event>): seq<Request>
    decreases |es|
  {
    if es == [] then []
    else if es[0].Ask? && !(Covered(es[0].r) && es[0].r.body.None?) then [es[0].r] + Requests(es[1..])
    else Requests(es[1..])
  }

  /** Replay is an erasure: dropping every request that hits a live key changes neither
      the final state nor the final key table, and the final state is the one the bare
      handler reaches on the requests that remain. */
  lemma {:induction false} ReplayIsErasure<S>(h: Handler<S>, s: S, keys: map<string, KeyRow>, es: seq<Event>)
    ensures Run(h, s, keys, Erased(h, s, keys, es)) == Run(h, s, keys, es)
    ensures Run(h, s, keys, es).0 == Bare(h, s, Requests(Erased(h, s, keys, es)))
    decreases |es|
  {
    if es != [] {
      var (t, k) := Step(h, s, keys, es[0]);
      ReplayIsErasure(h, t, k, es[1..]);
      var rest := Erased(h, t, k, es[1..]);
      if !(es[0].Ask? && Hit(keys, es[0].r, es[0].now, es[0].lookupOk)) {
        assert ([es[0]] + rest)[1..] == rest;
        if es[0].Ask? && !(Covered(es[0].r) && es[0].r.body.None?) {
          assert ([es[0].r] + Requests(rest))[1..] == Requests(rest);
        }
      }
    }
  }

  // ---- the promise behind a key ----

  function When(e: Event): Time {
    e.now
  }

  /** While its row lives, a key leads to the same row through every continuation. */
  lemma {:induction false} RowStays<S>(h: Handler<S>, s: S, keys: map<string, KeyRow>, es: seq<Event>, key: string)
    requires key in keys && forall e | e in es :: When(e) < keys[key].expires
    ensures var k := Run(h, s, keys, es).1; key in k && k[key] == keys[key]
    decreases |es|
  {
    if es != [] {
      assert es[0] in es;
      var (t, k) := Step(h, s, keys, es[0]);
      assert key in k && k[key] == keys[key];
      assert forall e | e in es[1..] :: e in es;
      RowStays(h, t, k, es[1..], key);
    }
  }

  /** Under a live key only an unreadable request, which the handler does not see, or one
      whose lookup query fails is not answered from the table. */
  lemma {:induction false} LiveKeyShields<S>(h: Handler<S>, s: S, keys: map<string, KeyRow>, es: seq<Event>,
                                             key: string)
    requires key != "" && key in keys && forall e | e in es :: When(e) < keys[key].expires
    ensures forall e | e in Erased(h, s, keys, es) && e.Ask? && Mutating(e.r) && e.r.key == key ::
              e.r.body.None? || !e.lookupOk
    decreases |es|
  {
    if es != [] {
      assert es[0] in es;
      var (t, k) := Step(h, s, keys, es[0]);
      assert key in k && k[key] == keys[key];
      assert forall e | e in es[1..] :: e in es;
      LiveKeyShields(h, t, k, es[1..], key);
    }
  }

  /** A request executed with a key that has no row is executed once: whatever follows
      within 24 hours, no request with that key whose lookup works reaches the handler
      again, the same body gets the first reply, and another body gets a 422. */
  lemma ExecutedOnce<S>(h: Handler<S>, s: S, keys: map<string, KeyRow>, r: Request, now: Time, lookupOk: bool,
                        es: seq<Event>, again: Request, later: Time, storeOk: bool)
    requires r.verb in {POST, PUT, DELETE} && r.key != "" && r.body.Some? && r.key !in keys
    requires forall e | e in es :: When(e) < now + 24 * 3600 * 1_000_000_000
    requires again.verb in {POST, PUT, DELETE} && again.key == r.key && again.body.Some?
    requires later < now + 24 * 3600 * 1_000_000_000
    ensures var first := Serve(h, s, keys, r, now, lookupOk, true);
            var (t, k) := Run(h, first.state, first.keys, es);
            && Hit(k, again, later, true)
            && Serve(h, t, k, again, later, true, storeOk)
               == Served(t, k, if again.body == r.body then first.reply
                                else Reply(422, "idempotency key already used with a different request body"))
            && (forall e | e in Erased(h, first.state, first.keys, es) && e.Ask? && Mutating(e.r)
                           && e.r.key == r.key :: e.r.body.None? || !e.lookupOk)
  {
    var first := Serve(h, s, keys, r, now, lookupOk, true);
    RowStays(h, first.state, first.keys, es, r.key);
    LiveKeyShields(h, first.state, first.keys, es, r.key);
  }

  /** Other requests and sweeps never make a dead or missing row live. */
  lemma {:induction false} NotLiveStays<S>(h: Handler<S>, s: S, keys: map<string, KeyRow>, es: seq<Event>, key: string,
                                           later: Time)
    requires !LiveKey(keys, key, later)
    requires forall e | e in es && e.Ask? && Mutating(e.r) :: e.r.key != key
    ensures !LiveKey(Run(h, s, keys, es).1, key, later)
    decreases |es|
  {
    if es != [] {
      assert es[0] in es;
      var (t, k) := Step(h, s, keys, es[0]);
      assert forall e | e in es[1..] :: e in es;
      NotLiveStays(h, t, k, es[1..], key, later);
    }
  }

  /** The promise of 24 hours of protection, exactly. A request reached the handler; other
      requests and cleanups followed; a retry within 24 hours is answered from the table
      if and only if its lookup works and either the key had no row before the request and
      its row was stored, or a row was there all along, unseen by a failing lookup, and is
      still live. An expired row still in the table, or a failing lookup, makes the retry
      run the handler a second time. */
  lemma RetryProtectedIff<S>(h: Handler<S>, s: S, keys: map<string, KeyRow>, r: Request, now: Time, firstLookup: bool,
                             storeOk: bool, es: seq<Event>, later: Time, lookupOk: bool)
    requires r.verb in {POST, PUT, DELETE} && r.key != "" && r.body.Some? && !Hit(keys, r, now, firstLookup)
    requires now <= later < now + 24 * 3600 * 1_000_000_000
    requires forall e | e in es :: When(e) <= later && (e.Ask? && Mutating(e.r) ==> e.r.key != r.key)
    ensures var first := Serve(h, s, keys, r, now, firstLookup, storeOk);
            Hit(Run(h, first.state, first.keys, es).1, r, later, lookupOk)
            <==> lookupOk && if r.key in keys then LiveKey(keys, r.key, later) else storeOk
  {
    var first := Serve(h, s, keys, r, now, firstLookup, storeOk);
    if LiveKey(first.keys, r.key, later) {
      RowStays(h, first.state, first.keys, es, r.key);
    } else {
      NotLiveStays(h, first.state, first.keys, es, r.key, later);
    }
  }

  /** The row a first request leaves. */
  lemma StoredRow<S>(h: Handler<S>, s: S, keys: map<string, KeyRow>, r: Request, now: Time, lookupOk: bool)
    requires r.verb in {POST, PUT, DELETE} && r.key != "" && r.body.Some? && r.key !in keys
    ensures var x := Serve(h, s, keys, r, now, lookupOk, true);
            && x.state == h(s, r).0 && x.reply == Sent(h(s, r).1)
            && x.keys == keys[r.key := KeyRow(r.user, Digest(r.body.value), x.reply.code, x.reply.body,
                                              now + 86_400 * 1_000_000_000)]
    ensures Serve(h, s, keys, r, now, lookupOk, false) == Served(h(s, r).0, keys, Sent(h(s, r).1))
  {
  }

  /** A stored key answers for exactly 24 hours. */
  lemma KeyLivesADay<S>(h: Handler<S>, s: S, keys: map<string, KeyRow>, r: Request, now: Time, later: Time)
    requires r.verb in {POST, PUT, DELETE} && r.key != "" && r.body.Some? && r.key !in keys
    ensures Hit(Serve(h, s, keys, r, now, true, true).keys, r, later, true)
            <==> later < now + 86_400 * 1_000_000_000
  {
  }

  /** A keyed request whose body cannot be read is a 400 and changes nothing. */
  lemma UnreadableIsRefused<S>(h: Handler<S>, s: S, keys: map<string, KeyRow>, r: Request, now: Time, lookupOk: bool,
                               storeOk: bool)
    requires r.verb in {POST, PUT, DELETE} && r.key != "" && r.body.None?
    ensures Serve(h, s, keys, r, now, lookupOk, storeOk) == Served(s, keys, Reply(400, "failed to read request body"))
  {
  }

  /** The unprotected case happens: with a stale row the handler runs for the request and
      again for its retry one instant later. */
  lemma StaleRowRunsTwice<S>(h: Handler<S>, s: S, body: string, user: Option<Id>)
    returns (keys: map<string, KeyRow>, r: Request, now: Time)
    ensures Covered(r) && r.body == Some(body)
    ensures var first := Serve(h, s, keys, r, now, true, true);
            && first.state == h(s, r).0
            && Serve(h, first.state, first.keys, r, now + 1, true, true).state == h(h(s, r).0, r).0
  {
    r := Request(POST, "/api/ledger/transactions", "k", "", user, Some(body));
    keys := map["k" := KeyRow(user, Digest(body), 201, "", DAY)];
    now := DAY;
  }

  /** So does the other one: the first request leaves a live row, the lookup of its retry
      fails, the handler runs again, and the failing insert is not reported. */
  lemma FailedLookupRunsTwice<S>(h: Handler<S>, s: S, r: Request, now: Time, storeOk: bool)
    requires r.verb in {POST, PUT, DELETE} && r.key != "" && r.body.Some?
    ensures var first := Serve(h, s, map[], r, now, true, true);
            var retry := Serve(h, first.state, first.keys, r, now, false, storeOk);
            && LiveKey(first.keys, r.key, now)
            && retry.state == h(h(s, r).0, r).0 && retry.keys == first.keys
            && retry.reply == Sent(h(h(s, r).0, r).1)
  {
  }

  /** The key is global: user and path play no part in the answer, although the
      documentation speaks of a scope per user. */
  lemma KeyIsGlobal<S>(h: Handler<S>, s: S, keys: map<string, KeyRow>, a: Request, b: Request, now: Time, ok: bool)
    requires Hit(keys, a, now, true) && b.verb in {POST, PUT, DELETE} && b.key == a.key && b.body == a.body
    ensures Serve(h, s, keys, b, now, true, ok) == Serve(h, s, keys, a, now, true, ok)
  {
  }

  // ---- the middleware ----

  /** responseCapture: collects what the handler sends. */
  class ResponseCapture {
    var body: string
    var statusCode: int

    constructor ()
      ensures body == "" && statusCode == 200
    {
      body, statusCode := "", 200;
    }

    method Write(chunk: string)
      modifies this`body
      ensures body == old(body) + chunk
    {
      body := body + chunk;
    }

    method WriteHeader(code: int)
      modifies this`statusCode
      ensures statusCode == code
    {
      statusCode := code;
    }
  }

  class Middleware<S> {
    var state: S
    var keys: map<string, KeyRow>
    const next: Handler<S>

    constructor (state: S, next: Handler<S>)
      ensures this.state == state && this.next == next && keys == map[]
    {
      this.state, this.next, this.keys := state, next, map[];
    }

    /** c.Next(): run the handler and let it write through the capture. */
    method RunHandler(r: Request) returns (writer: ResponseCapture)
      modifies this`state
      ensures fresh(writer)
      ensures state == next(old(state), r).0
      ensures Reply(writer.statusCode, writer.body) == Sent(next(old(state), r).1)
    {
      var (t, o) := next(state, r);
      state := t;
      writer := new ResponseCapture();
      if o.status.Some? {
        writer.WriteHeader(o.status.value);
      }
      for i := 0 to |o.chunks|
        invariant state == t && writer.body == Joined(o.chunks[..i])
        invariant writer.statusCode == Sent(o).code
      {
        assert o.chunks[..i + 1][..i] == o.chunks[..i];
        writer.Write(o.chunks[i]);
      }
      assert o.chunks[..|o.chunks|] == o.chunks;
    }

    method Handle(r: Request, now: Time, lookupOk: bool, storeOk: bool) returns (reply: Reply)
      modifies this
      ensures Served(state, keys, reply) == Serve(next, old(state), old(keys), r, now, lookupOk, storeOk)
    {
      if (r.verb != POST && r.verb != PUT && r.verb != DELETE) || r.key == "" {
        var writer := RunHandler(r);
        return Reply(writer.statusCode, writer.body);
      }
      if r.body.None? {
        return UNREADABLE;
      }
      var requestHash := Digest(r.body.value);
      if lookupOk && r.key in keys && keys[r.key].expires > now {
        var existing := keys[r.key];
        if existing.hash != requestHash {
          return MISMATCH;
        }
        return Reply(existing.code, existing.body);
      }
      var writer := RunHandler(r);
      reply := Reply(writer.statusCode, writer.body);
      if storeOk && r.key !in keys {
        keys := keys[r.key := KeyRow(r.user, requestHash, writer.statusCode, writer.body, now + DAY)];
      }
    }
  }
}
