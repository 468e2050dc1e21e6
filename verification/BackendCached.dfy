/** The backend as clients reach it: routes outside /api go straight to their handler;
    routes under /api pass authentication first and the idempotency middleware second,
    so that a refused request neither reads nor writes the key table. */
module BackendCached {
  import opened Common
  import opened Tables
  import opened Backend
  import opened Idempotency
  import Outbox
  import Tokens

  /** `decode` validates the signature of an Authorization header; `parse` reads the
      action off a request, given the authenticated bearer on routes under /api and the
      database statement that fails this time; `render` writes the response. Role checks
      belong to the actions. */
  datatype Api = Api(cfg: Tokens.Config, decode: string -> Option<Tokens.AccessToken>,
                     parse: (Request, Option<Tokens.AccessToken>, nat) -> Move, render: (World, Move) -> Output)

  datatype Gate = Gate(world: World, keys: map<string, KeyRow>)

  /** The /api group, behind both middlewares. */
  predicate Protected(r: Request) {
    "/api/" <= r.path
  }

  /** AuthMiddleware: the bearer, if the token is genuine and has not expired. */
  function Bearer(api: Api, w: World, r: Request): Option<Tokens.AccessToken> {
    match api.decode(r.credential)
    case Some(t) => if Admitted(w, t) then Some(t) else None
    case None => None
  }

  const REFUSED := Reply(401, "invalid or expired token")

  /** The request as the handlers behind authentication see it. */
  function Identified(r: Request, bearer: Tokens.AccessToken): Request {
    r.(user := Some(bearer.user))
  }

  /** c.Next() of the idempotency middleware: role check, handler, response. */
  function Inner(api: Api, fault: nat): Handler<World> {
    (w: World, r: Request) =>
      var m := api.parse(r, api.decode(r.credential), fault);
      (Backend.Step(api.cfg, w, m), api.render(w, m))
  }

  /** `lookupOk` and `storeOk` tell whether the two queries on the key table work. */
  function Answer(api: Api, g: Gate, r: Request, fault: nat, lookupOk: bool, storeOk: bool): Served<World> {
    if !Protected(r) then
      var m := api.parse(r, None, fault);
      Served(Backend.Step(api.cfg, g.world, m), g.keys, Sent(api.render(g.world, m)))
    else
      match Bearer(api, g.world, r)
      case None => Served(g.world, g.keys, REFUSED)
      case Some(t) =>
        Serve(Inner(api, fault), g.world, g.keys, Identified(r, t), g.world.now, lookupOk, storeOk)
  }

  // ---- runs ----

  /** A request, the clock, or a round of the publisher. */
  datatype Arrival =
    | Http(r: Request, fault: nat, lookupOk: bool, storeOk: bool)
    | Elapse(time: nat)
    | Round(fetchFails: bool, failing: set<Id>, keysFail: bool, collectFails: bool)

  function Arrive(api: Api, g: Gate, e: Arrival): Gate {
    match e
    case Http(r, fault, lookupOk, storeOk) =>
      var x := Answer(api, g, r, fault, lookupOk, storeOk);
      Gate(x.state, x.keys)
    case Elapse(time) => g.(world := Backend.Step(api.cfg, g.world, Tick(time)))
    case Round(fetchFails, failing, keysFail, collectFails) =>
      var rows := g.world.db.outbox;
      Gate(Backend.Step(api.cfg, g.world, Publish(fetchFails, failing, collectFails)),
           if keysFail || fetchFails || Outbox.Batch(rows, |rows|) == [] then g.keys else Clean(g.keys, g.world.now))
  }

  function GateRun(api: Api, g: Gate, es: seq<Arrival>): Gate
    decreases |es|
  {
    if es == [] then g else GateRun(api, Arrive(api, g, es[0]), es[1..])
  }

  /** The request passes authentication and can be read. */
  predicate Admissible(api: Api, g: Gate, r: Request) {
    Protected(r) && Bearer(api, g.world, r).Some? && (Covered(r) ==> r.body.Some?)
  }

  /** And it is not answered from the key table. */
  predicate Executes(api: Api, g: Gate, r: Request, lookupOk: bool) {
    Admissible(api, g, r) && (Covered(r) && lookupOk ==> !LiveKey(g.keys, r.key, g.world.now))
  }

  function MoveOf(api: Api, r: Request, t: Tokens.AccessToken, fault: nat): Move {
    api.parse(Identified(r, t), api.decode(r.credential), fault)
  }

  /** The actions an arrival performs: one at most. */
  function Performed(api: Api, g: Gate, e: Arrival): seq<Move> {
    match e
    case Http(r, fault, lookupOk, _) =>
      if !Protected(r) then [api.parse(r, None, fault)]
      else if Executes(api, g, r, lookupOk) then [MoveOf(api, r, Bearer(api, g.world, r).value, fault)]
      else []
    case Elapse(time) => [Tick(time)]
    case Round(fetchFails, failing, _, collectFails) => [Publish(fetchFails, failing, collectFails)]
  }

  function Trace(api: Api, g: Gate, es: seq<Arrival>): seq<Move>
    decreases |es|
  {
    if es == [] then [] else Performed(api, g, es[0]) + Trace(api, Arrive(api, g, es[0]), es[1..])
  }

  /** Executions under a key. */
  predicate ExecutesUnder(api: Api, g: Gate, e: Arrival, key: string) {
    e.Http? && Covered(e.r) && e.r.key == key && Executes(api, g, e.r, e.lookupOk)
  }

  /** Admissible requests under a key whose lookup query fails. */
  predicate LookupFailsUnder(api: Api, g: Gate, e: Arrival, key: string) {
    e.Http? && Covered(e.r) && e.r.key == key && Admissible(api, g, e.r) && !e.lookupOk
  }

  function FailedLookups(api: Api, g: Gate, es: seq<Arrival>, key: string): nat
    decreases |es|
  {
    if es == [] then 0
    else
      (if LookupFailsUnder(api, g, es[0], key) then 1 else 0) + FailedLookups(api, Arrive(api, g, es[0]), es[1..], key)
  }

  function Executions(api: Api, g: Gate, es: seq<Arrival>, key: string): nat
    decreases |es|
  {
    if es == [] then 0
    else (if ExecutesUnder(api, g, es[0], key) then 1 else 0) + Executions(api, Arrive(api, g, es[0]), es[1..], key)
  }

  lemma {:induction false} RunSplits(api: Api, g: Gate, first: seq<Arrival>, rest: seq<Arrival>)
    ensures GateRun(api, g, first + rest) == GateRun(api, GateRun(api, g, first), rest)
    decreases |first|
  {
    if first == [] {
      assert first + rest == rest;
    } else {
      RunSplits(api, Arrive(api, g, first[0]), first[1..], rest);
      assert (first + rest)[1..] == first[1..] + rest;
    }
  }

  lemma {:induction false} TraceSplits(api: Api, g: Gate, first: seq<Arrival>, rest: seq<Arrival>)
    ensures Trace(api, g, first + rest) == Trace(api, g, first) + Trace(api, GateRun(api, g, first), rest)
    decreases |first|
  {
    if first == [] {
      assert first + rest == rest;
    } else {
      var g' := Arrive(api, g, first[0]);
      TraceSplits(api, g', first[1..], rest);
      assert (first + rest)[1..] == first[1..] + rest && (first + rest)[0] == first[0];
      assert Trace(api, g, first + rest) == Performed(api, g, first[0]) + Trace(api, g', first[1..] + rest);
      Associative(Performed(api, g, first[0]), Trace(api, g', first[1..]), Trace(api, GateRun(api, g, first), rest));
    }
  }

  lemma Associative(a: seq<Move>, b: seq<Move>, c: seq<Move>)
    ensures (a + b) + c == a + (b + c)
  {
  }

  lemma {:induction false} ExecutionsSplit(api: Api, g: Gate, first: seq<Arrival>, rest: seq<Arrival>, key: string)
    ensures Executions(api, g, first + rest, key)
         == Executions(api, g, first, key) + Executions(api, GateRun(api, g, first), rest, key)
    decreases |first|
  {
    if first == [] {
      assert first + rest == rest;
    } else {
      ExecutionsSplit(api, Arrive(api, g, first[0]), first[1..], rest, key);
      assert (first + rest)[1..] == first[1..] + rest;
    }
  }

  // ---- refused and replayed requests are erasures ----

  /** A refused request changes nothing, whatever its key, and gets a 401. */
  lemma RefusalLeavesNoTrace(api: Api, g: Gate, r: Request, fault: nat, lookupOk: bool, storeOk: bool)
    requires "/api/" <= r.path && Bearer(api, g.world, r).None?
    ensures Answer(api, g, r, fault, lookupOk, storeOk)
         == Served(g.world, g.keys, Reply(401, "invalid or expired token"))
  {
  }

  /** Outside /api, under GET and under no key, every request that gets in acts, and the
      key table is left alone. */
  lemma UnkeyedRequestsAct(api: Api, g: Gate, r: Request, fault: nat, lookupOk: bool, storeOk: bool)
    ensures var g' := Arrive(api, g, Http(r, fault, lookupOk, storeOk));
            && (!("/api/" <= r.path) ==>
                  g' == g.(world := Backend.Step(api.cfg, g.world, api.parse(r, None, fault))))
            && ("/api/" <= r.path && Bearer(api, g.world, r).Some?
                && (r.verb == GET || r.verb == OTHER || r.key == "") ==>
                  var t := Bearer(api, g.world, r).value;
                  g' == g.(world := Backend.Step(api.cfg, g.world, MoveOf(api, r, t, fault))))
  {
  }

  /** A round of the publisher that finds entries drops exactly the expired rows, unless
      that statement fails. */
  lemma RoundCleansKeys(api: Api, g: Gate, fetchFails: bool, failing: set<Id>, keysFail: bool, collectFails: bool,
                        key: string)
    ensures var g' := Arrive(api, g, Round(fetchFails, failing, keysFail, collectFails));
            var cleans := !fetchFails && !keysFail && exists i :: 0 <= i < |g.world.db.outbox|
                                                                  && !g.world.db.outbox[i].published;
            && (key in g'.keys <==> key in g.keys && !(cleans && g.keys[key].expires < g.world.now))
            && (key in g'.keys ==> g'.keys[key] == g.keys[key])
  {
    Outbox.BatchEmptyIff(g.world.db.outbox);
  }

  /** Time passes, and nothing else. */
  lemma ElapseIs(api: Api, g: Gate, time: nat)
    ensures Arrive(api, g, Elapse(time)) == g.(world := g.world.(now := g.world.now + time))
  {
  }

  lemma ArrivalIsPerformed(api: Api, g: Gate, e: Arrival)
    ensures Arrive(api, g, e).world == After(api.cfg, g.world, Performed(api, g, e))
    ensures Performed(api, g, e) == [] ==> Arrive(api, g, e) == g
  {
    var moves := Performed(api, g, e);
    if moves != [] {
      assert moves[..0] == [];
      assert After(api.cfg, g.world, moves) == Backend.Step(api.cfg, g.world, moves[0]);
    }
  }

  /** Whatever clients reach through authentication and cache is reached by the backend
      alone, on the actions performed. Every theorem about backend runs holds there. */
  lemma {:induction false} CachedRunIsBackendRun(api: Api, g: Gate, es: seq<Arrival>)
    ensures GateRun(api, g, es).world == After(api.cfg, g.world, Trace(api, g, es))
    decreases |es|
  {
    if es != [] {
      var g' := Arrive(api, g, es[0]);
      CachedRunIsBackendRun(api, g', es[1..]);
      ArrivalIsPerformed(api, g, es[0]);
      AfterSplits(api.cfg, g.world, Performed(api, g, es[0]), Trace(api, g', es[1..]));
    }
  }

  /** The arrivals that perform something. */
  function Kept(api: Api, g: Gate, es: seq<Arrival>): seq<Arrival>
    decreases |es|
  {
    if es == [] then []
    else
      var rest := Kept(api, Arrive(api, g, es[0]), es[1..]);
      if Performed(api, g, es[0]) == [] then rest else [es[0]] + rest
  }

  /** Dropping every refused, replayed, mismatched or unreadable request leaves the same
      world and the same key table. */
  lemma {:induction false} RefusalsAndReplaysAreErasures(api: Api, g: Gate, es: seq<Arrival>)
    ensures GateRun(api, g, Kept(api, g, es)) == GateRun(api, g, es)
    decreases |es|
  {
    if es != [] {
      var g' := Arrive(api, g, es[0]);
      RefusalsAndReplaysAreErasures(api, g', es[1..]);
      ArrivalIsPerformed(api, g, es[0]);
      assert ([es[0]] + Kept(api, g', es[1..]))[1..] == Kept(api, g', es[1..]);
    }
  }

  // ---- one execution per key ----

  lemma {:induction false} ClockGoesOn(api: Api, g: Gate, es: seq<Arrival>)
    ensures g.world.now <= GateRun(api, g, es).world.now
    decreases |es|
  {
    if es != [] {
      ArrivalGrows(api, g, es[0]);
      ClockGoesOn(api, Arrive(api, g, es[0]), es[1..]);
    }
  }

  lemma ArrivalGrows(api: Api, g: Gate, e: Arrival)
    ensures g.world.now <= Arrive(api, g, e).world.now
  {
    var moves := Performed(api, g, e);
    ArrivalIsPerformed(api, g, e);
    if moves != [] {
      assert moves[..0] == [];
      NextGrows(api.cfg, g.world, moves[0]);
    }
  }

  /** Only an execution under a key writes its row. */
  lemma KeyStaysFree(api: Api, g: Gate, e: Arrival, key: string)
    requires key !in g.keys && !ExecutesUnder(api, g, e, key)
    ensures key !in Arrive(api, g, e).keys
  {
  }

  lemma {:induction false} RunLeavesKeyFree(api: Api, g: Gate, es: seq<Arrival>, key: string)
    requires key !in g.keys && Executions(api, g, es, key) == 0
    ensures key !in GateRun(api, g, es).keys
    decreases |es|
  {
    if es != [] {
      KeyStaysFree(api, g, es[0], key);
      RunLeavesKeyFree(api, Arrive(api, g, es[0]), es[1..], key);
    }
  }

  lemma ArrivalKeepsRow(api: Api, g: Gate, e: Arrival, key: string)
    requires LiveKey(g.keys, key, g.world.now)
    ensures key in Arrive(api, g, e).keys && Arrive(api, g, e).keys[key] == g.keys[key]
    ensures ExecutesUnder(api, g, e, key) <==> LookupFailsUnder(api, g, e, key)
  {
  }

  /** A live row stays for as long as it lives, and until then the key executes exactly
      where a lookup query fails. */
  lemma {:induction false} RowShields(api: Api, g: Gate, es: seq<Arrival>, key: string)
    requires key in g.keys && GateRun(api, g, es).world.now < g.keys[key].expires
    ensures var k := GateRun(api, g, es).keys; key in k && k[key] == g.keys[key]
    ensures Executions(api, g, es, key) == FailedLookups(api, g, es, key)
    decreases |es|
  {
    if es != [] {
      ClockGoesOn(api, g, es);
      ArrivalKeepsRow(api, g, es[0], key);
      RowShields(api, Arrive(api, g, es[0]), es[1..], key);
    }
  }

  /** The first admitted request under the key: refused or unreadable attempts under it
      may come before, and its row is stored. */
  ghost predicate FirstAdmitted(api: Api, g: Gate, before: seq<Arrival>, first: Arrival) {
    && first.Http? && first.storeOk
    && "/api/" <= first.r.path && first.r.verb in {POST, PUT, DELETE} && first.r.key != ""
    && first.r.key !in g.keys && Executions(api, g, before, first.r.key) == 0
    && Admissible(api, GateRun(api, g, before), first.r)
  }

  /** What follows ends within 24 hours of it. */
  ghost predicate WithinADay(api: Api, g: Gate, before: seq<Arrival>, first: Arrival, later: seq<Arrival>) {
    var g1 := GateRun(api, g, before);
    GateRun(api, Arrive(api, g1, first), later).world.now < g1.world.now + 24 * 3600 * 1_000_000_000
  }

  lemma FirstAdmittedIsStored(api: Api, g: Gate, before: seq<Arrival>, first: Arrival)
    requires FirstAdmitted(api, g, before, first)
    ensures var g1 := GateRun(api, g, before);
            var g2, r := Arrive(api, g1, first), first.r;
            && ExecutesUnder(api, g1, first, r.key)
            && g2.world == Backend.Step(api.cfg, g1.world, MoveOf(api, r, Bearer(api, g1.world, r).value, first.fault))
            && r.key in g2.keys
            && g2.keys[r.key].hash == Digest(r.body.value) && g2.keys[r.key].expires == g1.world.now + DAY
            && g2.keys[r.key].user == Some(Bearer(api, g1.world, r).value.user)
            && Answer(api, g1, r, first.fault, first.lookupOk, true).reply
               == Reply(g2.keys[r.key].code, g2.keys[r.key].body)
  {
    RunLeavesKeyFree(api, g, before, first.r.key);
  }

  /** A keyed request executes once, and once more for every later admissible attempt
      whose lookup query fails. Whatever comes before its first admitted attempt without
      executing under the key, and whatever follows within 24 hours, the run performs the
      actions before, that request's action, and the actions after. */
  lemma {:induction false} ExecutesOnce(api: Api, g: Gate, before: seq<Arrival>, first: Arrival, later: seq<Arrival>)
    requires FirstAdmitted(api, g, before, first) && WithinADay(api, g, before, first, later)
    ensures var g1, key := GateRun(api, g, before), first.r.key;
            var g2, all := Arrive(api, g1, first), before + ([first] + later);
            && Executions(api, g, all, key) == 1 + FailedLookups(api, g2, later, key)
            && Trace(api, g, all)
               == Trace(api, g, before)
                  + ([MoveOf(api, first.r, Bearer(api, g1.world, first.r).value, first.fault)]
                     + Trace(api, g2, later))
            && GateRun(api, g, all) == GateRun(api, g2, later)
  {
    FirstAdmittedIsStored(api, g, before, first);
    RowShields(api, Arrive(api, GateRun(api, g, before), first), later, first.r.key);
    RunSplits(api, g, before, [first] + later);
    TraceSplits(api, g, before, [first] + later);
    ExecutionsSplit(api, g, before, [first] + later, first.r.key);
    assert ([first] + later)[1..] == later;
  }

  /** Every admissible retry within 24 hours whose lookup works gets the first reply, or a
      422 if its body differs, and changes nothing. */
  lemma {:induction false} RetriesGetFirstReply(api: Api, g: Gate, before: seq<Arrival>, first: Arrival,
                                                later: seq<Arrival>, again: Request, fault: nat, storeOk: bool)
    requires FirstAdmitted(api, g, before, first) && WithinADay(api, g, before, first, later)
    requires again.verb in {POST, PUT, DELETE} && again.key == first.r.key
    requires Admissible(api, GateRun(api, Arrive(api, GateRun(api, g, before), first), later), again)
    ensures var g1 := GateRun(api, g, before);
            var g3 := GateRun(api, Arrive(api, g1, first), later);
            Answer(api, g3, again, fault, true, storeOk)
            == Served(g3.world, g3.keys,
                      if again.body == first.r.body then
                        Answer(api, g1, first.r, first.fault, first.lookupOk, true).reply
                      else Reply(422, "idempotency key already used with a different request body"))
  {
    FirstAdmittedIsStored(api, g, before, first);
    RowShields(api, Arrive(api, GateRun(api, g, before), first), later, first.r.key);
  }

  // ---- attempts are invisible ----

  /** An attempt under the key. */
  predicate AttemptUnder(e: Arrival, key: string) {
    e.Http? && "/api/" <= e.r.path && e.r.verb in {POST, PUT, DELETE} && e.r.key == key
  }

  /** Everything but the attempts: other requests, the clock, the publisher. */
  function Others(es: seq<Arrival>, key: string): seq<Arrival>
    decreases |es|
  {
    if es == [] then []
    else if AttemptUnder(es[0], key) then Others(es[1..], key)
    else [es[0]] + Others(es[1..], key)
  }

  /** Attempts that do not execute may be dropped from any run. */
  lemma {:induction false} UnexecutedAttempts(api: Api, g: Gate, es: seq<Arrival>, key: string)
    requires key != "" && Executions(api, g, es, key) == 0
    ensures GateRun(api, g, Others(es, key)) == GateRun(api, g, es)
    decreases |es|
  {
    if es != [] {
      ArrivalIsPerformed(api, g, es[0]);
      UnexecutedAttempts(api, Arrive(api, g, es[0]), es[1..], key);
      if !AttemptUnder(es[0], key) {
        assert ([es[0]] + Others(es[1..], key))[1..] == Others(es[1..], key);
      }
    }
  }

  /** Attempts before and after the first admitted one are invisible: whatever other
      requests, time and publisher rounds lie between them, a posting sent any number of
      times under one key, refused or not, with the same or with other bodies, leaves the
      world and the key table as if sent once. Only a failing lookup breaks this. */
  lemma {:induction false} RetriesAreInvisible(api: Api, g: Gate, before: seq<Arrival>, first: Arrival,
                                               later: seq<Arrival>)
    requires FirstAdmitted(api, g, before, first) && WithinADay(api, g, before, first, later)
    requires FailedLookups(api, Arrive(api, GateRun(api, g, before), first), later, first.r.key) == 0
    ensures var key := first.r.key;
            GateRun(api, g, before + ([first] + later))
            == GateRun(api, g, Others(before, key) + ([first] + Others(later, key)))
  {
    var key, g1 := first.r.key, GateRun(api, g, before);
    FirstAdmittedIsStored(api, g, before, first);
    RowShields(api, Arrive(api, g1, first), later, key);
    UnexecutedAttempts(api, g, before, key);
    UnexecutedAttempts(api, Arrive(api, g1, first), later, key);
    RunSplits(api, g, before, [first] + later);
    RunSplits(api, g, Others(before, key), [first] + Others(later, key));
    assert ([first] + later)[1..] == later && ([first] + Others(later, key))[1..] == Others(later, key);
  }

  /** An attempt under an expired token does not use up the key: the retry with a valid
      one executes. */
  lemma RefusedThenRetried(api: Api, g: Gate, refused: Arrival, retry: Arrival)
    requires refused.Http? && AttemptUnder(refused, refused.r.key) && Bearer(api, g.world, refused.r).None?
    requires FirstAdmitted(api, g, [], retry) && refused.r.key == retry.r.key
    ensures GateRun(api, g, [refused, retry]).world
         == Backend.Step(api.cfg, g.world, MoveOf(api, retry.r, Bearer(api, g.world, retry.r).value, retry.fault))
  {
    var es := [refused, retry];
    assert es[1..] == [retry] && es[1..][1..] == [];
    RefusalLeavesNoTrace(api, g, refused.r, refused.fault, refused.lookupOk, refused.storeOk);
    assert Arrive(api, g, es[0]) == g == GateRun(api, g, []);
    FirstAdmittedIsStored(api, g, [], retry);
    var after := Arrive(api, g, es[1]);
    assert GateRun(api, g, es) == GateRun(api, g, es[1..]) == GateRun(api, after, es[1..][1..]) == after;
  }
}
