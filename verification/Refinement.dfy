/**
 Why the interleaving model is about the same client: an exchange depends on the past only through the environment, so it
 can be run in a world of its own; and a chat or stream as the client's method runs it is one run of the model.
 */
module Refinement {
  import opened Prelude
  import opened Quality
  import opened Payment
  import opened Exchange
  import opened Client
  import opened Pipeline
  import Cache
  import CH = CacheHistory
  import Session
  import SH = SessionHistory

  /** `later` placed after everything that happened in `w`. */
  function Shift(w: World, later: World): World {
    World(w.sent + later.sent, w.signAttempts + later.signAttempts, w.ledger + later.ledger)
  }

  /** The environment as seen by someone who starts counting after `w`. */
  function Rebased(env: Environment, w: World): Environment {
    Environment((sent: seq<Send>) => env.gateway(w.sent + sent), (n: nat) => env.signer(w.signAttempts + n))
  }

  function Lifted<T>(w: World, o: Outcome<T>): Outcome<T> {
    Outcome(Shift(w, o.world), o.result)
  }

  lemma PostedShift(w: World, d: World, send: Send)
    ensures Posted(Shift(w, d), send) == Shift(w, Posted(d, send))
  {
    assert w.sent + d.sent + [send] == w.sent + (d.sent + [send]);
  }

  lemma SignShift(gate: Gate, env: Environment, w: World, d: World, required: PaymentRequired)
    ensures Sign(gate, env, Shift(w, d), required) == Lifted(w, Sign(gate, Rebased(env, w), d, required))
  {
    match Validate(gate, required)
    case Ok(p) => assert w.ledger + d.ledger + [p] == w.ledger + (d.ledger + [p]);
    case Err(_) =>
  }

  lemma PayShift(gate: Gate, env: Environment, w: World, d: World, req: ChatRequest, required: PaymentRequired)
    ensures PayAndResend(gate, env, Shift(w, d), req, required)
            == Lifted(w, PayAndResend(gate, Rebased(env, w), d, req, required))
  {
    SignShift(gate, env, w, d, required);
    var signed := Sign(gate, Rebased(env, w), d, required);
    if signed.result.Ok? {
      PostedShift(w, signed.world, Send(req, false, Some(signed.result.value)));
    }
  }

  lemma AttemptShift(gate: Gate, env: Environment, w: World, d: World, req: ChatRequest, retry: bool)
    ensures Attempt(gate, env, Shift(w, d), req, retry) == Lifted(w, Attempt(gate, Rebased(env, w), d, req, retry))
  {
    PostedShift(w, d, Send(req, retry, None));
    var w1 := Posted(d, Send(req, retry, None));
    var reply := Rebased(env, w).gateway(w1.sent);
    if reply.Reply? && reply.body.Some? && reply.body.value.required.Some? {
      PayShift(gate, env, w, w1, req, reply.body.value.required.value);
    }
  }

  lemma {:induction false} RetryShift(s: Settings, bad: Detector, env: Environment, w: World, d: World, req: ChatRequest,
                                      response: ChatResponse, total: u64, left: nat)
    ensures Retry(s, bad, env, Shift(w, d), req, response, total, left)
            == Lifted(w, Retry(s, bad, Rebased(env, w), d, req, response, total, left))
    decreases left
  {
    if left > 0 && bad(response) {
      AttemptShift(s.gate, env, w, d, req, true);
      var a := Attempt(s.gate, Rebased(env, w), d, req, true);
      if a.result.Ok? {
        RetryShift(s, bad, env, w, a.world, req, a.result.value.response,
                   SaturatingAdd(total, AmountOf(a.result.value)), left - 1);
      }
    }
  }

  /** What a chat's exchange does after `w` is what it does from nothing in the environment seen from `w`. */
  lemma ExchangeIsLocal(s: Settings, bad: Detector, env: Environment, w: World, req: ChatRequest)
    ensures Converse(s, bad, env, w, req) == Lifted(w, Converse(s, bad, Rebased(env, w), Nothing, req))
  {
    assert Shift(w, Nothing) == w;
    AttemptShift(s.gate, env, w, Nothing, req, false);
    var a := Attempt(s.gate, Rebased(env, w), Nothing, req, false);
    if a.result.Ok? && s.qualityCheck {
      RetryShift(s, bad, env, w, a.world, req, a.result.value.response, AmountOf(a.result.value), s.maxRetries);
    }
  }

  lemma StreamReplyShift(env: Environment, w: World, d: World)
    ensures StreamReply(env, Shift(w, d)) == Lifted(w, StreamReply(Rebased(env, w), d))
  {
  }

  /** The same for a stream. */
  lemma StreamIsLocal(gate: Gate, env: Environment, w: World, req: ChatRequest)
    ensures OpenStream(gate, env, w, req) == Lifted(w, OpenStream(gate, Rebased(env, w), Nothing, req))
  {
    assert Shift(w, Nothing) == w;
    var probe, streaming := Send(req.(stream := false), false, None), req.(stream := true);
    PostedShift(w, Nothing, probe);
    var w1 := Posted(Nothing, probe);
    var reply := Rebased(env, w).gateway(w1.sent);
    if reply.Reply? && reply.status == OK {
      PostedShift(w, w1, Send(streaming, false, None));
      StreamReplyShift(env, w, Posted(w1, Send(streaming, false, None)));
    } else if reply.Reply? && reply.body.Some? && reply.body.value.required.Some? {
      SignShift(gate, env, w, w1, reply.body.value.required.value);
      var signed := Sign(gate, Rebased(env, w), w1, reply.body.value.required.value);
      if signed.result.Ok? {
        var paid := Send(streaming, false, Some(signed.result.value));
        PostedShift(w, signed.world, paid);
        StreamReplyShift(env, w, Posted(signed.world, paid));
      }
    }
  }

  // ---------------------------------------------------------------- a sequential call is a run

  ghost function From(x: Setup, s: State, steps: seq<Step>): State
    requires SetupOk(x)
    decreases steps
  {
    if steps == [] then s else From(x, Next(x, s, steps[0]), steps[1..])
  }

  lemma {:induction false} FromAppend(x: Setup, s: State, a: seq<Step>, b: seq<Step>)
    requires SetupOk(x)
    ensures From(x, s, a + b) == From(x, From(x, s, a), b)
    decreases a
  {
    if a == [] {
      assert a + b == b;
    } else {
      assert (a + b)[1..] == a[1..] + b;
      FromAppend(x, Next(x, s, a[0]), a[1..], b);
    }
  }

  ghost function SlotsOf(x: Setup, s: State): Client.Slots
    requires SetupOk(x)
  {
    if x.caching.Some? then Pipeline.Slots(x, s) else []
  }

  ghost function SessionsOf(x: Setup, s: State): Session.Sessions {
    if x.sessionTtl.Some? then SH.Run(x.sessionTtl.value, s.history) else map[]
  }

  /** The state as the sequential client would see it, after `w` was sent and signed. */
  ghost function View(x: Setup, s: State, w: World): Snapshot
    requires SetupOk(x)
  {
    Snapshot(w, SlotsOf(x, s), SessionsOf(x, s))
  }

  /** When the two lock sections of the lookup do their work: at the read if it finds a live session, else at the write. */
  function LookupTime(x: Setup, sessions: Session.Sessions, req: ChatRequest, t: Times): (nat, nat) {
    if x.sessionTtl.None? then (t.read, t.read)
    else if Session.Live(x.sessionTtl.value, sessions, x.hashing.sessionId(req.messages), t.read) then (t.read, t.read)
    else (t.write, t.created)
  }

  ghost function LookupSteps(x: Setup, s: State, tid: Tid, kind: Kind, req: ChatRequest, t: Times): seq<Step> {
    var (now, stamp) := LookupTime(x, SessionsOf(x, s), req, t);
    [Start(tid, kind, req), LoadBalance(tid), Tick(now), LookupSession(tid, stamp)]
  }

  /** The request a call starts from: a chat does not stream. */
  function Plain(kind: Kind, req: ChatRequest): ChatRequest {
    if kind.Chat? then req.(stream := false) else req
  }

  lemma CacheAppended(cfg: Cache.Config, ops: seq<CH.Op<ChatResponse>>, op: CH.Op<ChatResponse>)
    requires cfg.capacity >= 1
    ensures CH.Run(cfg, ops + [op]) == CH.Apply(cfg, CH.Run(cfg, ops), op)
  {
    assert (ops + [op])[..|ops|] == ops;
  }

  /** The call has been looked up and stands before the cache, a stream before its record, with nothing sent or signed. */
  ghost predicate LookupDone(s: State, tid: Tid, kind: Kind, req: ChatRequest) {
    && In(s, tid, if kind.Chat? then AtCache else AtRecord) && s.threads[tid].request == req
    && s.threads[tid].kind == kind && s.threads[tid].world == Nothing
    && s.threads[tid].response.None? && s.threads[tid].error.None?
  }

  /** The thread as it stands before its session lookup. */
  function Ready(x: Setup, balance: u64, kind: Kind, req: ChatRequest): Thread {
    Loaded(x, balance, Thread(kind, req, AtBalance, req, false, None, None, None, false, None, None, Nothing))
  }

  lemma ReadyRuns(x: Setup, s: State, tid: Tid, kind: Kind, req: ChatRequest, now: nat)
    requires SetupOk(x) && tid !in s.threads && s.clock <= now
    ensures var s' := Next(x, Next(x, Next(x, s, Start(tid, kind, req)), LoadBalance(tid)), Tick(now));
            && tid in s'.threads && s'.threads[tid] == Ready(x, s.balance, kind, req) && s'.clock == now
            && s'.history == s.history && s'.cacheOps == s.cacheOps
  {
  }

  lemma LookedUpRuns(x: Setup, s: State, tid: Tid, balance: u64, kind: Kind, req: ChatRequest, t: Times)
    requires SetupOk(x) && tid in s.threads && s.threads[tid] == Ready(x, balance, kind, req) && t.Ordered()
    requires s.clock == LookupTime(x, SessionsOf(x, s), req, t).0
    ensures var s' := Next(x, s, LookupSession(tid, LookupTime(x, SessionsOf(x, s), req, t).1));
            var p := Prepare(x, balance, SessionsOf(x, s), Plain(kind, req), t);
            && LookupDone(s', tid, kind, p.request)
            && SessionsOf(x, s') == p.sessions && s'.cacheOps == s.cacheOps && s'.clock <= t.created
  {
    var (now, stamp) := LookupTime(x, SessionsOf(x, s), req, t);
    if x.sessionTtl.Some? {
      var id := x.hashing.sessionId(req.messages);
      SH.Append(x.sessionTtl.value, s.history, SH.GetOrCreate(id, s.threads[tid].request.model, now, stamp));
    }
  }

  /** After the lookup the call has the request the client would have prepared. */
  lemma LookupRuns(x: Setup, s: State, tid: Tid, kind: Kind, req: ChatRequest, t: Times)
    requires SetupOk(x) && tid !in s.threads && t.Ordered() && s.clock <= t.read
    ensures var s' := From(x, s, LookupSteps(x, s, tid, kind, req, t));
            var p := Prepare(x, s.balance, SessionsOf(x, s), Plain(kind, req), t);
            && LookupDone(s', tid, kind, p.request)
            && SessionsOf(x, s') == p.sessions && s'.cacheOps == s.cacheOps && s'.clock <= t.created
  {
    var (now, stamp) := LookupTime(x, SessionsOf(x, s), req, t);
    FourSteps(x, s, Start(tid, kind, req), LoadBalance(tid), Tick(now), LookupSession(tid, stamp));
    ReadyRuns(x, s, tid, kind, req, now);
    var s3 := Next(x, Next(x, Next(x, s, Start(tid, kind, req)), LoadBalance(tid)), Tick(now));
    LookedUpRuns(x, s3, tid, s.balance, kind, req, t);
  }

  lemma OneStep(x: Setup, s: State, a: Step, rest: seq<Step>)
    requires SetupOk(x)
    ensures From(x, s, [a] + rest) == From(x, Next(x, s, a), rest)
  {
    assert ([a] + rest)[1..] == rest;
  }

  lemma FourSteps(x: Setup, s: State, a: Step, b: Step, c: Step, d: Step)
    requires SetupOk(x)
    ensures From(x, s, [a, b, c, d]) == Next(x, Next(x, Next(x, Next(x, s, a), b), c), d)
  {
    assert [a, b, c, d] == [a] + [b, c, d] && [b, c, d] == [b] + [c, d] && [c, d] == [c] + [d] && [d] == [d] + [];
    OneStep(x, s, a, [b, c, d]);
    OneStep(x, Next(x, s, a), b, [c, d]);
    OneStep(x, Next(x, Next(x, s, a), b), c, [d]);
    OneStep(x, Next(x, Next(x, Next(x, s, a), b), c), d, []);
  }

  lemma CacheRuns(x: Setup, s: State, tid: Tid, req: ChatRequest, t: Times)
    requires SetupOk(x) && LookupDone(s, tid, Kind.Chat, req) && s.clock <= t.get
    ensures var s' := Next(x, Next(x, s, Tick(t.get)), GetCached(tid));
            var hit := CacheHit(x, SlotsOf(x, s), req, t.get);
            && SlotsOf(x, s') == SlotsAfterGet(x, SlotsOf(x, s), req, t.get)
            && SessionsOf(x, s') == SessionsOf(x, s) && s'.clock == t.get
            && tid in s'.threads
            && s'.threads[tid].request == req && s'.threads[tid].kind.Chat? && s'.threads[tid].world == Nothing
            && s'.threads[tid].error.None? && s'.threads[tid].response == hit
            && s'.threads[tid].phase == if hit.Some? then Done else AtExchange
  {
    if x.caching.Some? {
      CacheAppended(x.caching.value, s.cacheOps, CH.Get(KeyOf(x, req), t.get));
    }
  }

  lemma StoreRuns(x: Setup, s: State, tid: Tid, t: Times)
    requires SetupOk(x) && In(s, tid, AtStore) && s.clock <= t.put <= t.stamp
    requires s.threads[tid].kind.Chat? && s.threads[tid].response.Some?
    ensures var thread := s.threads[tid];
            var s' := Next(x, Next(x, Next(x, s, Tick(t.put)), StoreResponse(tid, t.stamp)), RecordRequest(tid));
            && SlotsOf(x, s') == SlotsAfterPut(x, SlotsOf(x, s), thread.request, thread.response.value, t)
            && SessionsOf(x, s') == Client.Recorded(x, SessionsOf(x, s), thread.request)
            && tid in s'.threads && s'.threads[tid].response == thread.response
            && s'.threads[tid].world == thread.world && s'.threads[tid].phase == Done
  {
    var thread := s.threads[tid];
    if x.caching.Some? {
      CacheAppended(x.caching.value, s.cacheOps, CH.Put(KeyOf(x, thread.request), thread.response.value, t.put, t.stamp));
    }
    if x.sessionTtl.Some? {
      SH.Append(x.sessionTtl.value, s.history, RecordOp(x, thread));
    }
  }

  ghost function RestSteps(tid: Tid, t: Times, env: Environment): seq<Step> {
    [Tick(t.get), GetCached(tid), DoExchange(tid, env), Tick(t.put)] + [StoreResponse(tid, t.stamp), RecordRequest(tid)]
  }

  lemma RestUnfolds(x: Setup, s: State, tid: Tid, t: Times, env: Environment)
    requires SetupOk(x)
    ensures From(x, s, RestSteps(tid, t, env))
            == var got := Next(x, Next(x, s, Tick(t.get)), GetCached(tid));
               var exchanged := Next(x, got, DoExchange(tid, env));
               Next(x, Next(x, Next(x, exchanged, Tick(t.put)), StoreResponse(tid, t.stamp)), RecordRequest(tid))
  {
    FromAppend(x, s, [Tick(t.get), GetCached(tid), DoExchange(tid, env), Tick(t.put)],
               [StoreResponse(tid, t.stamp), RecordRequest(tid)]);
    FourSteps(x, s, Tick(t.get), GetCached(tid), DoExchange(tid, env), Tick(t.put));
    var s4 := From(x, s, [Tick(t.get), GetCached(tid), DoExchange(tid, env), Tick(t.put)]);
    assert [StoreResponse(tid, t.stamp), RecordRequest(tid)] == [StoreResponse(tid, t.stamp)] + [RecordRequest(tid)];
    OneStep(x, s4, StoreResponse(tid, t.stamp), [RecordRequest(tid)]);
    assert [RecordRequest(tid)] == [RecordRequest(tid)] + [];
    OneStep(x, Next(x, s4, StoreResponse(tid, t.stamp)), RecordRequest(tid), []);
  }

  /** What a finished run shows: the cache, the sessions, the call's result and what it sent and signed. */
  ghost predicate Shows(x: Setup, s: State, tid: Tid, slots: Client.Slots, sessions: Session.Sessions, world: World,
                        r: Result<ChatResponse, ClientError>)
    requires SetupOk(x)
  {
    && SlotsOf(x, s) == slots && SessionsOf(x, s) == sessions
    && In(s, tid, Done) && s.threads[tid].world == world
    && (match r
        case Ok(response) => s.threads[tid].response == Some(response) && s.threads[tid].error.None?
        case Err(e) => s.threads[tid].error == Some(e))
  }

  /** After the cache: nothing more on a hit, else the exchange and, if it succeeds, the store and the record. */
  lemma ExchangeRuns(x: Setup, got: State, tid: Tid, req: ChatRequest, t: Times, env: Environment)
    requires SetupOk(x) && In(got, tid, AtExchange) && got.threads[tid].request == req && got.threads[tid].kind.Chat?
    requires got.threads[tid].world == Nothing && got.threads[tid].error.None? && got.clock <= t.put <= t.stamp
    ensures var exchanged := Next(x, got, DoExchange(tid, env));
            var s' := Next(x, Next(x, Next(x, exchanged, Tick(t.put)), StoreResponse(tid, t.stamp)), RecordRequest(tid));
            var o := Answer(x.(env := env), Nothing, req);
            if o.result.Err? then Shows(x, s', tid, SlotsOf(x, got), SessionsOf(x, got), o.world, o.result)
            else Shows(x, s', tid, SlotsAfterPut(x, SlotsOf(x, got), req, o.result.value, t),
                       Client.Recorded(x, SessionsOf(x, got), req), o.world, o.result)
  {
    var exchanged := Next(x, got, DoExchange(tid, env));
    if Answer(x.(env := env), Nothing, req).result.Ok? {
      StoreRuns(x, exchanged, tid, t);
    }
  }

  lemma DoneStays(x: Setup, s: State, tid: Tid, t: Times, env: Environment)
    requires SetupOk(x) && In(s, tid, Done)
    ensures var s' := Next(x, Next(x, Next(x, Next(x, s, DoExchange(tid, env)), Tick(t.put)), StoreResponse(tid, t.stamp)),
                           RecordRequest(tid));
            s'.threads == s.threads && s'.cacheOps == s.cacheOps && s'.history == s.history
  {
  }

  lemma RestRuns(x: Setup, s: State, tid: Tid, req: ChatRequest, t: Times, env: Environment)
    requires SetupOk(x) && LookupDone(s, tid, Kind.Chat, req) && s.clock <= t.get <= t.put <= t.stamp
    ensures var s' := From(x, s, RestSteps(tid, t, env));
            var hit := CacheHit(x, SlotsOf(x, s), req, t.get);
            var slots := SlotsAfterGet(x, SlotsOf(x, s), req, t.get);
            if hit.Some? then Shows(x, s', tid, slots, SessionsOf(x, s), Nothing, Ok(hit.value))
            else
              var o := Answer(x.(env := env), Nothing, req);
              if o.result.Err? then Shows(x, s', tid, slots, SessionsOf(x, s), o.world, o.result)
              else Shows(x, s', tid, SlotsAfterPut(x, slots, req, o.result.value, t),
                         Client.Recorded(x, SessionsOf(x, s), req), o.world, o.result)
  {
    var got := Next(x, Next(x, s, Tick(t.get)), GetCached(tid));
    RestUnfolds(x, s, tid, t, env);
    CacheRuns(x, s, tid, req, t);
    if got.threads[tid].phase == Done {
      DoneStays(x, got, tid, t, env);
    } else {
      ExchangeRuns(x, got, tid, req, t, env);
    }
  }

  /**
   A chat run by the client alone is a run of the interleaving model: same cache, same sessions, same result, and the
   transactions and requests the model attributes to the call are the ones the client adds to what came before.
   */
  lemma ChatIsARun(x: Setup, s: State, w: World, tid: Tid, req: ChatRequest, t: Times)
    requires SetupOk(x) && tid !in s.threads && t.Ordered() && s.clock <= t.read
    ensures var steps := LookupSteps(x, s, tid, Kind.Chat, req, t) + RestSteps(tid, t, Rebased(x.env, w));
            var s' := From(x, s, steps);
            var (after, r) := ChatSpec(x, s.balance, View(x, s, w), req, t);
            && In(s', tid, Done) && View(x, s', Shift(w, s'.threads[tid].world)) == after
            && (match r
                case Ok(response) => s'.threads[tid].response == Some(response) && s'.threads[tid].error.None?
                case Err(e) => s'.threads[tid].error == Some(e))
  {
    var env := Rebased(x.env, w);
    var first := From(x, s, LookupSteps(x, s, tid, Kind.Chat, req, t));
    var p := Prepare(x, s.balance, SessionsOf(x, s), req.(stream := false), t);
    FromAppend(x, s, LookupSteps(x, s, tid, Kind.Chat, req, t), RestSteps(tid, t, env));
    LookupRuns(x, s, tid, Kind.Chat, req, t);
    RestRuns(x, first, tid, p.request, t, env);
    ExchangeIsLocal(x.settings, DetectorOf(x.unicode), x.env, w, p.request);
    assert Shift(w, Nothing) == w;
  }

  lemma RecordAndOpen(x: Setup, s: State, tid: Tid, req: ChatRequest, env: Environment)
    requires SetupOk(x) && LookupDone(s, tid, Kind.Stream, req)
    ensures var s' := Next(x, Next(x, s, RecordRequest(tid)), DoExchange(tid, env));
            var o := OpenStream(x.settings.gate, env, Nothing, req);
            && SlotsOf(x, s') == SlotsOf(x, s) && SessionsOf(x, s') == Client.Recorded(x, SessionsOf(x, s), req)
            && In(s', tid, Done) && s'.threads[tid].world == o.world && s'.threads[tid].error == ErrorOf(o.result)
  {
    if x.sessionTtl.Some? {
      SH.Append(x.sessionTtl.value, s.history, RecordOp(x, s.threads[tid]));
    }
  }

  /** The same for opening a stream alone. */
  lemma StreamIsARun(x: Setup, s: State, w: World, tid: Tid, req: ChatRequest, t: Times)
    requires SetupOk(x) && tid !in s.threads && t.Ordered() && s.clock <= t.read
    ensures var steps := LookupSteps(x, s, tid, Kind.Stream, req, t) + [RecordRequest(tid), DoExchange(tid, Rebased(x.env, w))];
            var s' := From(x, s, steps);
            var (after, r) := StreamSpec(x, s.balance, View(x, s, w), req, t);
            && In(s', tid, Done) && View(x, s', Shift(w, s'.threads[tid].world)) == after
            && s'.threads[tid].error == ErrorOf(r)
  {
    var env := Rebased(x.env, w);
    var first := From(x, s, LookupSteps(x, s, tid, Kind.Stream, req, t));
    var p := Prepare(x, s.balance, SessionsOf(x, s), req, t);
    FromAppend(x, s, LookupSteps(x, s, tid, Kind.Stream, req, t), [RecordRequest(tid), DoExchange(tid, env)]);
    assert [RecordRequest(tid), DoExchange(tid, env)] == [RecordRequest(tid)] + ([DoExchange(tid, env)] + []);
    OneStep(x, first, RecordRequest(tid), [DoExchange(tid, env)] + []);
    OneStep(x, Next(x, first, RecordRequest(tid)), DoExchange(tid, env), []);
    LookupRuns(x, s, tid, Kind.Stream, req, t);
    RecordAndOpen(x, first, tid, p.request, env);
    StreamIsLocal(x.settings.gate, x.env, w, p.request);
  }
}
