/**
 Any number of chats and streams on one client, interleaved with each other, with balance updates, session cleanups and
 the clock. Each step is one access to shared state: a balance load, a lock section of the session store or the cache, or
 a whole paid exchange. The exchange touches no shared state of the client, so it is one step with an environment of its
 own; since that environment is arbitrary, it covers every interleaving with the exchanges of other calls. The session
 lookup is one step because `SessionThreads.Linearizable` shows that its two lock sections amount to one.
 */
module Pipeline {
  import opened Prelude
  import opened Quality
  import opened Payment
  import opened Exchange
  import opened Spend
  import opened Client
  import Cache
  import CH = CacheHistory
  import Session
  import SH = SessionHistory

  type Tid = nat

  datatype Kind = Chat | Stream

  datatype Phase = AtBalance | AtSession | AtCache | AtExchange | AtStore | AtRecord | Done

  /**
   One call. `lookup` and `recorded` are the indices of its session lookup and of its record in the session history,
   `env` is how gateway and signer behaved towards its exchange, `world` what it has sent and signed.
   */
  datatype Thread = Thread(kind: Kind, original: ChatRequest, phase: Phase, request: ChatRequest, fallback: bool,
                           lookup: Option<nat>, response: Option<ChatResponse>, error: Option<ClientError>,
                           hit: bool, recorded: Option<nat>, env: Option<Environment>, world: World)

  /** The cache and the session store are the results of the operations done on them so far. */
  datatype State = State(clock: nat, balance: u64, cacheOps: seq<CH.Op<ChatResponse>>, history: seq<SH.Op>,
                         threads: map<Tid, Thread>)

  const Nothing := World([], 0, [])
  const Initial := State(0, NOT_POLLED, [], [], map[])

  datatype Step =
    | Tick(now: nat)
    | SetBalance(balance: u64)
    | CleanupExpired
    | Start(tid: Tid, kind: Kind, req: ChatRequest)
    | LoadBalance(tid: Tid)
    | LookupSession(tid: Tid, stamp: nat)
    | GetCached(tid: Tid)
    | DoExchange(tid: Tid, env: Environment)
    | StoreResponse(tid: Tid, stamp: nat)
    | RecordRequest(tid: Tid)

  ghost function Slots(x: Setup, s: State): Client.Slots
    requires SetupOk(x) && x.caching.Some?
  {
    CH.Run(x.caching.value, s.cacheOps)
  }

  predicate In(s: State, tid: Tid, phase: Phase) {
    tid in s.threads && s.threads[tid].phase == phase
  }

  ghost function SetThread(s: State, tid: Tid, t: Thread): State {
    s.(threads := s.threads[tid := t])
  }

  /** What a call's own balance load makes of its request. */
  function Loaded(x: Setup, balance: u64, t: Thread): Thread {
    var plain := if t.kind.Chat? then t.original.(stream := false) else t.original;
    t.(phase := AtSession, fallback := UsesFallback(x.fallback, balance),
       request := plain.(model := OfferedModel(x.fallback, balance, t.original.model)))
  }

  ghost function AfterLookup(x: Setup, s: State, tid: Tid, t: Thread, stamp: nat): State {
    var next := if t.kind.Chat? then AtCache else AtRecord;
    if x.sessionTtl.None? then SetThread(s, tid, t.(phase := next))
    else
      var id := x.hashing.sessionId(t.request.messages);
      var info := Session.WriteInfo(x.sessionTtl.value, SH.Run(x.sessionTtl.value, s.history), id, t.request.model, s.clock);
      var t' := t.(phase := next, lookup := Some(|s.history|),
                   request := if t.fallback then t.request else t.request.(model := info.model));
      SetThread(s.(clock := stamp, history := s.history + [SH.GetOrCreate(id, t.request.model, s.clock, stamp)]), tid, t')
  }

  ghost function AfterCacheGet(x: Setup, s: State, tid: Tid, t: Thread): State
    requires SetupOk(x)
  {
    if x.caching.None? then SetThread(s, tid, t.(phase := AtExchange))
    else
      var key := KeyOf(x, t.request);
      var hit := Cache.Hit(x.caching.value, Slots(x, s), key, s.clock);
      var s' := s.(cacheOps := s.cacheOps + [CH.Get(key, s.clock)]);
      if hit.Some? then SetThread(s', tid, t.(phase := Done, hit := true, response := hit))
      else SetThread(s', tid, t.(phase := AtExchange))
  }

  function ErrorOf<T>(r: Result<T, ClientError>): Option<ClientError> {
    if r.Err? then Some(r.error) else None
  }

  /** A call after its exchange, with the gateway and signer it met. */
  ghost function Exchanged(x: Setup, t: Thread, env: Environment): Thread {
    if t.kind.Stream? then
      var o := OpenStream(x.settings.gate, env, t.world, t.request);
      t.(phase := Done, env := Some(env), world := o.world, error := ErrorOf(o.result))
    else
      var o := Answer(x.(env := env), t.world, t.request);
      t.(phase := if o.result.Ok? then AtStore else Done, env := Some(env), world := o.world, error := ErrorOf(o.result),
         response := if o.result.Ok? then Some(o.result.value) else None)
  }

  ghost function AfterStore(x: Setup, s: State, tid: Tid, t: Thread, stamp: nat): State {
    var t' := t.(phase := AtRecord);
    if x.caching.None? || t.response.None? then SetThread(s, tid, t')
    else SetThread(s.(clock := stamp,
                      cacheOps := s.cacheOps + [CH.Put(KeyOf(x, t.request), t.response.value, s.clock, stamp)]), tid, t')
  }

  function RecordedThread(t: Thread, recorded: Option<nat>): Thread {
    t.(phase := if t.kind.Chat? then Done else AtExchange, recorded := recorded)
  }

  function RecordOp(x: Setup, t: Thread): SH.Op {
    SH.Record(x.hashing.sessionId(t.request.messages), x.hashing.content(t.request.messages))
  }

  ghost function AfterRecord(x: Setup, s: State, tid: Tid, t: Thread): State {
    if x.sessionTtl.None? then SetThread(s, tid, RecordedThread(t, t.recorded))
    else SetThread(s.(history := s.history + [RecordOp(x, t)]), tid, RecordedThread(t, Some(|s.history|)))
  }

  /** A step that is not enabled leaves the state alone, so every list of steps is a run. */
  ghost function Next(x: Setup, s: State, step: Step): State
    requires SetupOk(x)
  {
    match step
    case Tick(now) => if s.clock <= now then s.(clock := now) else s
    case SetBalance(b) => s.(balance := b)
    case CleanupExpired => if x.sessionTtl.Some? then s.(history := s.history + [SH.Cleanup(s.clock)]) else s
    case Start(tid, kind, req) =>
      if tid in s.threads then s
      else SetThread(s, tid, Thread(kind, req, AtBalance, req, false, None, None, None, false, None, None, Nothing))
    case LoadBalance(tid) => if In(s, tid, AtBalance) then SetThread(s, tid, Loaded(x, s.balance, s.threads[tid])) else s
    case LookupSession(tid, stamp) =>
      if In(s, tid, AtSession) && s.clock <= stamp then AfterLookup(x, s, tid, s.threads[tid], stamp) else s
    case GetCached(tid) => if In(s, tid, AtCache) then AfterCacheGet(x, s, tid, s.threads[tid]) else s
    case DoExchange(tid, env) => if In(s, tid, AtExchange) then SetThread(s, tid, Exchanged(x, s.threads[tid], env)) else s
    case StoreResponse(tid, stamp) =>
      if In(s, tid, AtStore) && s.clock <= stamp then AfterStore(x, s, tid, s.threads[tid], stamp) else s
    case RecordRequest(tid) => if In(s, tid, AtRecord) then AfterRecord(x, s, tid, s.threads[tid]) else s
  }

  ghost function Exec(x: Setup, steps: seq<Step>): State
    requires SetupOk(x)
  {
    if steps == [] then Initial else Next(x, Exec(x, steps[..|steps| - 1]), steps[|steps| - 1])
  }

  // ---------------------------------------------------------------- the invariant

  /** The model a call is looked up with. */
  ghost predicate OffersOwnModel(x: Setup, t: Thread, model: string) {
    if t.fallback then x.fallback.Some? && model == x.fallback.value else model == t.original.model
  }

  /** The call's session lookup, and the model it left in the request. */
  ghost predicate LookedUp(x: Setup, history: seq<SH.Op>, t: Thread)
    requires x.sessionTtl.Some?
  {
    && t.lookup.Some? && t.lookup.value < |history|
    && (var op := history[t.lookup.value];
        && op.GetOrCreate? && op.id == x.hashing.sessionId(t.original.messages)
        && OffersOwnModel(x, t, op.model)
        && t.request.model == if t.fallback then op.model
                              else SH.InfoAt(x.sessionTtl.value, history, t.lookup.value).model)
  }

  /** The call's response is what its exchange gave, for its final request, with the gateway and signer it met. */
  ghost predicate Answered(x: Setup, t: Thread) {
    && t.env.Some? && t.response.Some?
    && Answer(x.(env := t.env.value), Nothing, t.request) == Outcome(t.world, Ok(t.response.value))
  }

  /** What the call has signed it has sent, each transaction gated and for the 402 just received. */
  ghost predicate PaysAsAsked(x: Setup, t: Thread) {
    if t.env.Some? then PaidAsAsked(x.settings.gate, t.env.value, Nothing, t.world) else t.world == Nothing
  }

  /** The caps a call may use up: one, and a chat that fails another. */
  function Allowance(t: Thread): nat {
    if t.kind.Chat? && t.error.Some? then 2 else 1
  }

  ghost predicate WellSpent(x: Setup, t: Thread) {
    && PaysAsAsked(x, t)
    && (forall cap: nat :: Capped(x.settings, cap) ==> Sum(t.world.ledger) <= Allowance(t) * cap)
  }

  /** The call's record in the session history. */
  ghost predicate WasRecorded(x: Setup, history: seq<SH.Op>, t: Thread) {
    && t.recorded.Some? && t.recorded.value < |history| && history[t.recorded.value] == RecordOp(x, t)
  }

  /** A call counts in its session once the gateway has answered it, a stream as soon as it is looked up. */
  ghost predicate Counts(t: Thread) {
    if t.kind.Chat? then t.phase == Done && t.response.Some? && !t.hit else t.phase in {AtExchange, Done}
  }

  /** What the call has sent is its final request, streaming only in a stream's second request. */
  ghost predicate SendsOwn(t: Thread) {
    forall i :: 0 <= i < |t.world.sent| ==> t.world.sent[i].request == t.request.(stream := t.kind.Stream? && i == 1)
  }

  ghost predicate ThreadInv(x: Setup, history: seq<SH.Op>, t: Thread) {
    && t.request.messages == t.original.messages
    && (t.phase == AtBalance ==> !t.fallback)
    && (t.phase == AtSession ==> OffersOwnModel(x, t, t.request.model))
    && (t.phase !in {AtBalance, AtSession} ==>
          if x.sessionTtl.Some? then LookedUp(x, history, t) else OffersOwnModel(x, t, t.request.model))
    && (t.phase in {AtBalance, AtSession} ==> t.lookup.None?)
    && (t.phase !in {AtStore, AtRecord, Done} || t.hit ==> t.env.None?)
    && (t.kind.Stream? ==> !t.hit && t.phase !in {AtCache, AtStore} && t.response.None?)
    && (t.kind.Stream? && t.phase == AtRecord ==> t.env.None?)
    && (t.recorded.Some? ==> WasRecorded(x, history, t))
    && (t.recorded.Some? <==> x.sessionTtl.Some? && Counts(t))
    && (t.kind.Chat? && t.phase != AtBalance ==> !t.request.stream)
    && SendsOwn(t)
    && (t.kind.Chat? && t.phase in {AtStore, AtRecord} ==> t.response.Some? && !t.hit && t.error.None?)
    && (t.phase !in {AtStore, AtRecord, Done} ==> t.response.None? && t.error.None? && !t.hit)
    && (t.kind.Stream? && t.phase == AtRecord ==> t.error.None?)
    && (t.kind.Chat? && t.response.Some? && !t.hit ==> Answered(x, t))
    && WellSpent(x, t)
  }

  /** Some call got this value from its own exchange, for a request with this key. */
  ghost predicate Produced(x: Setup, threads: map<Tid, Thread>, key: Cache.Key, value: ChatResponse) {
    exists tid :: tid in threads && Produces(x, threads[tid], key, value)
  }

  ghost predicate Produces(x: Setup, t: Thread, key: Cache.Key, value: ChatResponse) {
    t.kind.Chat? && !t.hit && t.response == Some(value) && KeyOf(x, t.request) == key
  }

  ghost predicate LookupOf(threads: map<Tid, Thread>, j: nat) {
    exists tid :: tid in threads && threads[tid].lookup == Some(j)
  }

  ghost predicate RecordedBy(threads: map<Tid, Thread>, j: nat) {
    exists tid :: tid in threads && threads[tid].recorded == Some(j)
  }

  ghost predicate ThreadsOk(x: Setup, history: seq<SH.Op>, threads: map<Tid, Thread>) {
    forall tid :: tid in threads ==> ThreadInv(x, history, threads[tid])
  }

  /** The `g`-th cache operation was a get of the key and found this value. */
  ghost predicate GotAt(x: Setup, cacheOps: seq<CH.Op<ChatResponse>>, g: nat, key: Cache.Key, value: ChatResponse) {
    && SetupOk(x) && x.caching.Some? && g < |cacheOps| && cacheOps[g].Get? && cacheOps[g].key == key
    && Cache.Hit(x.caching.value, CH.Run(x.caching.value, cacheOps[..g]), key, cacheOps[g].now) == Some(value)
  }

  ghost predicate Got(x: Setup, cacheOps: seq<CH.Op<ChatResponse>>, key: Cache.Key, value: ChatResponse) {
    exists g: nat :: GotAt(x, cacheOps, g, key, value)
  }

  ghost predicate HitOk(x: Setup, cacheOps: seq<CH.Op<ChatResponse>>, t: Thread) {
    t.hit ==> t.response.Some? && Got(x, cacheOps, KeyOf(x, t.request), t.response.value)
  }

  ghost predicate HitsOk(x: Setup, threads: map<Tid, Thread>, cacheOps: seq<CH.Op<ChatResponse>>) {
    forall tid :: tid in threads ==> HitOk(x, cacheOps, threads[tid])
  }

  ghost predicate PutsOk(x: Setup, threads: map<Tid, Thread>, cacheOps: seq<CH.Op<ChatResponse>>) {
    forall i :: 0 <= i < |cacheOps| && cacheOps[i].Put? ==> Produced(x, threads, cacheOps[i].key, cacheOps[i].value)
  }

  ghost predicate LookupsOk(threads: map<Tid, Thread>, history: seq<SH.Op>) {
    forall j: nat :: j < |history| && history[j].GetOrCreate? ==> LookupOf(threads, j)
  }

  /** Every record in the session history was made by some call. */
  ghost predicate RecordsOk(threads: map<Tid, Thread>, history: seq<SH.Op>) {
    forall j: nat :: j < |history| && history[j].Record? ==> RecordedBy(threads, j)
  }

  /** No two calls made the same record. */
  ghost predicate RecordsApart(threads: map<Tid, Thread>) {
    forall a, b :: a in threads && b in threads && a != b && threads[a].recorded.Some?
                   ==> threads[a].recorded != threads[b].recorded
  }

  ghost predicate Inv(x: Setup, s: State)
    requires SetupOk(x)
  {
    && CH.Timed(s.cacheOps) && CH.Clock(s.cacheOps) <= s.clock
    && SH.Timed(s.history) && SH.Clock(s.history) <= s.clock
    && ThreadsOk(x, s.history, s.threads) && HitsOk(x, s.threads, s.cacheOps)
    && PutsOk(x, s.threads, s.cacheOps) && LookupsOk(s.threads, s.history)
    && RecordsOk(s.threads, s.history) && RecordsApart(s.threads)
  }

  // ---------------------------------------------------------------- steps keep it

  lemma HistoryGrows(x: Setup, history: seq<SH.Op>, op: SH.Op, t: Thread)
    requires ThreadInv(x, history, t)
    ensures ThreadInv(x, history + [op], t)
  {
    if x.sessionTtl.Some? && t.phase !in {AtBalance, AtSession} {
      assert (history + [op])[..t.lookup.value] == history[..t.lookup.value];
      assert LookedUp(x, history + [op], t);
    }
    assert t.recorded.Some? ==> WasRecorded(x, history + [op], t);
  }

  /** The threads change at `tid` only, and there without losing a response, a lookup or a record. */
  ghost predicate Advances(threads: map<Tid, Thread>, tid: Tid, t: Thread) {
    tid in threads ==>
      && (threads[tid].lookup.Some? ==> t.lookup == threads[tid].lookup)
      && (threads[tid].recorded.Some? ==> t.recorded == threads[tid].recorded)
      && (threads[tid].response.Some? && !threads[tid].hit ==>
            t.response == threads[tid].response && !t.hit && t.kind == threads[tid].kind
            && t.request == threads[tid].request)
  }

  lemma ProducedStays(x: Setup, threads: map<Tid, Thread>, tid: Tid, t: Thread, key: Cache.Key, value: ChatResponse)
    requires Produced(x, threads, key, value) && Advances(threads, tid, t)
    ensures Produced(x, threads[tid := t], key, value)
  {
    var p :| p in threads && Produces(x, threads[p], key, value);
    assert Produces(x, threads[tid := t][p], key, value);
  }

  lemma LookupStays(threads: map<Tid, Thread>, tid: Tid, t: Thread, j: nat)
    requires LookupOf(threads, j) && Advances(threads, tid, t)
    ensures LookupOf(threads[tid := t], j)
  {
    var p :| p in threads && threads[p].lookup == Some(j);
    assert threads[tid := t][p].lookup == Some(j);
  }

  lemma RecordStays(threads: map<Tid, Thread>, tid: Tid, t: Thread, j: nat)
    requires RecordedBy(threads, j) && Advances(threads, tid, t)
    ensures RecordedBy(threads[tid := t], j)
  {
    var p :| p in threads && threads[p].recorded == Some(j);
    assert threads[tid := t][p].recorded == Some(j);
  }

  lemma {:induction false} OthersStay(x: Setup, s: State, tid: Tid, t: Thread)
    requires SetupOk(x) && Inv(x, s) && Advances(s.threads, tid, t)
    ensures var threads := s.threads[tid := t];
            && PutsOk(x, threads, s.cacheOps) && LookupsOk(threads, s.history) && RecordsOk(threads, s.history)
            && (HitOk(x, s.cacheOps, t) ==> HitsOk(x, threads, s.cacheOps))
  {
    var threads := s.threads[tid := t];
    forall i | 0 <= i < |s.cacheOps| && s.cacheOps[i].Put?
      ensures Produced(x, threads, s.cacheOps[i].key, s.cacheOps[i].value)
    {
      ProducedStays(x, s.threads, tid, t, s.cacheOps[i].key, s.cacheOps[i].value);
    }
    forall j: nat | j < |s.history| && s.history[j].GetOrCreate? ensures LookupOf(threads, j) {
      LookupStays(s.threads, tid, t, j);
    }
    forall j: nat | j < |s.history| && s.history[j].Record? ensures RecordedBy(threads, j) {
      RecordStays(s.threads, tid, t, j);
    }
  }

  ghost predicate KeepsRecord(threads: map<Tid, Thread>, tid: Tid, t: Thread) {
    t.recorded == if tid in threads then threads[tid].recorded else None
  }

  lemma {:induction false} ApartStays(x: Setup, s: State, tid: Tid, t: Thread)
    requires SetupOk(x) && Inv(x, s)
    requires KeepsRecord(s.threads, tid, t) || t.recorded == Some(|s.history|)
    ensures RecordsApart(s.threads[tid := t])
  {
    var threads := s.threads[tid := t];
    forall a, b | a in threads && b in threads && a != b && threads[a].recorded.Some?
      ensures threads[a].recorded != threads[b].recorded
    {
      assert a in s.threads ==> ThreadInv(x, s.history, s.threads[a]);
      assert b in s.threads ==> ThreadInv(x, s.history, s.threads[b]);
    }
  }

  /** A step of one call that does not touch the cache or the session history. */
  lemma {:induction false} LocalStep(x: Setup, s: State, tid: Tid, t: Thread)
    requires SetupOk(x) && Inv(x, s) && Advances(s.threads, tid, t)
    requires ThreadInv(x, s.history, t) && !t.hit && KeepsRecord(s.threads, tid, t)
    ensures Inv(x, SetThread(s, tid, t))
  {
    OthersStay(x, s, tid, t);
    ApartStays(x, s, tid, t);
  }

  /** A step of one call that does one operation on the session store. */
  lemma {:induction false} SessionStep(x: Setup, s: State, tid: Tid, t: Thread, op: SH.Op, clock: nat)
    requires SetupOk(x) && Inv(x, s) && x.sessionTtl.Some? && Advances(s.threads, tid, t)
    requires !op.Cleanup? && s.clock <= clock && (op.GetOrCreate? ==> op.now == s.clock && op.stamp == clock)
    requires ThreadInv(x, s.history + [op], t) && !t.hit
    requires KeepsRecord(s.threads, tid, t) || t.recorded == Some(|s.history|)
    requires if op.GetOrCreate? then t.lookup == Some(|s.history|) else t.recorded == Some(|s.history|)
    ensures Inv(x, SetThread(s.(clock := clock, history := s.history + [op]), tid, t))
  {
    OthersStay(x, s, tid, t);
    ApartStays(x, s, tid, t);
    SH.Append(x.sessionTtl.value, s.history, op);
    HistoriesGrow(x, s.history, op, s.threads);
    OneMoreOp(s.threads, s.history, tid, t, op);
  }

  lemma OneMoreOp(threads: map<Tid, Thread>, history: seq<SH.Op>, tid: Tid, t: Thread, op: SH.Op)
    requires LookupsOk(threads[tid := t], history) && RecordsOk(threads[tid := t], history) && !op.Cleanup?
    requires if op.GetOrCreate? then t.lookup == Some(|history|) else t.recorded == Some(|history|)
    ensures LookupsOk(threads[tid := t], history + [op]) && RecordsOk(threads[tid := t], history + [op])
  {
    var after, n := threads[tid := t], |history|;
    assert op.GetOrCreate? ==> after[tid].lookup == Some(n);
    assert op.Record? ==> after[tid].recorded == Some(n);
    forall j: nat | j < n + 1 && (history + [op])[j].GetOrCreate? ensures LookupOf(after, j) {
      assert j < n ==> history[j].GetOrCreate?;
    }
    forall j: nat | j < n + 1 && (history + [op])[j].Record? ensures RecordedBy(after, j) {
      assert j < n ==> history[j].Record?;
    }
  }

  lemma HistoriesGrow(x: Setup, history: seq<SH.Op>, op: SH.Op, threads: map<Tid, Thread>)
    requires ThreadsOk(x, history, threads)
    ensures ThreadsOk(x, history + [op], threads)
  {
    forall p | p in threads ensures ThreadInv(x, history + [op], threads[p]) {
      HistoryGrows(x, history, op, threads[p]);
    }
  }

  lemma CacheAppend(ops: seq<CH.Op<ChatResponse>>, op: CH.Op<ChatResponse>)
    requires CH.Timed(ops) && CH.Clock(ops) <= op.now <= CH.End(op)
    ensures CH.Timed(ops + [op]) && CH.Clock(ops + [op]) == CH.End(op)
  {
    assert (ops + [op])[..|ops|] == ops;
  }

  /** Every slot of the cache was put there. */
  lemma {:induction false} SlotsWerePut(cfg: Cache.Config, ops: seq<CH.Op<ChatResponse>>, slot: Cache.Slot<ChatResponse>)
    requires cfg.capacity >= 1 && slot in CH.Run(cfg, ops)
    ensures exists i :: 0 <= i < |ops| && ops[i].Put? && ops[i].key == slot.key && ops[i].value == slot.value
                        && ops[i].stamp == slot.inserted
  {
    var n := |ops| - 1;
    var before, op := CH.Run(cfg, ops[..n]), ops[n];
    if slot in before {
      SlotsWerePut(cfg, ops[..n], slot);
    } else {
      assert op.Put? && slot == Cache.Slot(op.key, op.value, op.stamp) by {
        SlotFromStep(cfg, before, op, slot);
      }
    }
  }

  lemma SlotFromStep(cfg: Cache.Config, l: Client.Slots, op: CH.Op<ChatResponse>, slot: Cache.Slot<ChatResponse>)
    requires cfg.capacity >= 1 && slot in CH.Apply(cfg, l, op)
    ensures slot in l || (op.Put? && slot == Cache.Slot(op.key, op.value, op.stamp))
  {
  }

  lemma {:induction false} LookupKeeps(x: Setup, s: State, tid: Tid, stamp: nat)
    requires SetupOk(x) && Inv(x, s) && In(s, tid, AtSession) && s.clock <= stamp
    ensures Inv(x, AfterLookup(x, s, tid, s.threads[tid], stamp))
  {
    var t := s.threads[tid];
    var next := if t.kind.Chat? then AtCache else AtRecord;
    assert ThreadInv(x, s.history, t);
    if x.sessionTtl.None? {
      LocalStep(x, s, tid, t.(phase := next));
    } else {
      var id := x.hashing.sessionId(t.request.messages);
      var op := SH.GetOrCreate(id, t.request.model, s.clock, stamp);
      var info := Session.WriteInfo(x.sessionTtl.value, SH.Run(x.sessionTtl.value, s.history), id, t.request.model, s.clock);
      var t' := t.(phase := next, lookup := Some(|s.history|),
                   request := if t.fallback then t.request else t.request.(model := info.model));
      assert (s.history + [op])[..|s.history|] == s.history;
      assert LookedUp(x, s.history + [op], t');
      SessionStep(x, s, tid, t', op, stamp);
    }
  }

  /** Moving on from a phase changes nothing else that the invariant speaks of. */
  lemma Recorded(x: Setup, history: seq<SH.Op>, t: Thread, recorded: Option<nat>)
    requires ThreadInv(x, history, t) && t.phase == AtRecord
    requires recorded.Some? ==> recorded.value < |history| && history[recorded.value] == RecordOp(x, t)
    requires recorded.Some? <==> x.sessionTtl.Some?
    ensures ThreadInv(x, history, RecordedThread(t, recorded)) && !t.hit && t.recorded.None?
  {
    var t' := RecordedThread(t, recorded);
    assert x.sessionTtl.Some? ==> LookedUp(x, history, t');
    assert WellSpent(x, t');
    assert recorded.Some? ==> WasRecorded(x, history, t');
  }

  lemma RecordedLater(x: Setup, history: seq<SH.Op>, t: Thread)
    requires ThreadInv(x, history, t) && t.phase == AtRecord && x.sessionTtl.Some?
    ensures ThreadInv(x, history + [RecordOp(x, t)], RecordedThread(t, Some(|history|))) && !t.hit && t.recorded.None?
  {
    HistoryGrows(x, history, RecordOp(x, t), t);
    Recorded(x, history + [RecordOp(x, t)], t, Some(|history|));
  }

  lemma RecordAdvances(threads: map<Tid, Thread>, tid: Tid, recorded: Option<nat>)
    requires tid in threads && threads[tid].recorded.None?
    ensures Advances(threads, tid, RecordedThread(threads[tid], recorded))
    ensures RecordedThread(threads[tid], recorded).hit == threads[tid].hit
  {
  }

  lemma {:induction false} RecordKeeps(x: Setup, s: State, tid: Tid)
    requires SetupOk(x) && Inv(x, s) && In(s, tid, AtRecord)
    ensures Inv(x, AfterRecord(x, s, tid, s.threads[tid]))
  {
    var t := s.threads[tid];
    assert ThreadInv(x, s.history, t);
    if x.sessionTtl.None? {
      Recorded(x, s.history, t, t.recorded);
      RecordAdvances(s.threads, tid, t.recorded);
      LocalStep(x, s, tid, RecordedThread(t, t.recorded));
    } else {
      RecordedLater(x, s.history, t);
      RecordAdvances(s.threads, tid, Some(|s.history|));
      SessionStep(x, s, tid, RecordedThread(t, Some(|s.history|)), RecordOp(x, t), s.clock);
    }
  }

  lemma GotStays(x: Setup, cacheOps: seq<CH.Op<ChatResponse>>, op: CH.Op<ChatResponse>, t: Thread)
    requires HitOk(x, cacheOps, t)
    ensures HitOk(x, cacheOps + [op], t)
  {
    if t.hit {
      var key, value := KeyOf(x, t.request), t.response.value;
      var g: nat :| GotAt(x, cacheOps, g, key, value);
      assert (cacheOps + [op])[..g] == cacheOps[..g];
      assert GotAt(x, cacheOps + [op], g, key, value);
    }
  }

  lemma HitsStay(x: Setup, threads: map<Tid, Thread>, cacheOps: seq<CH.Op<ChatResponse>>, op: CH.Op<ChatResponse>)
    requires HitsOk(x, threads, cacheOps)
    ensures HitsOk(x, threads, cacheOps + [op])
  {
    forall tid | tid in threads ensures HitOk(x, cacheOps + [op], threads[tid]) {
      GotStays(x, cacheOps, op, threads[tid]);
    }
  }

  /** A step of one call that does one operation on the cache. */
  lemma {:induction false} CacheStep(x: Setup, s: State, tid: Tid, t: Thread, op: CH.Op<ChatResponse>)
    requires SetupOk(x) && Inv(x, s) && Advances(s.threads, tid, t)
    requires s.clock == op.now <= CH.End(op) && ThreadInv(x, s.history, t) && KeepsRecord(s.threads, tid, t)
    requires HitOk(x, s.cacheOps + [op], t)
    requires op.Put? ==> Produced(x, s.threads, op.key, op.value)
    ensures Inv(x, SetThread(s.(clock := CH.End(op), cacheOps := s.cacheOps + [op]), tid, t))
  {
    var threads, cacheOps := s.threads[tid := t], s.cacheOps + [op];
    OthersStay(x, s, tid, t);
    ApartStays(x, s, tid, t);
    CacheAppend(s.cacheOps, op);
    HitsStay(x, s.threads, s.cacheOps, op);
    if op.Put? {
      ProducedStays(x, s.threads, tid, t, op.key, op.value);
    }
    assert HitsOk(x, threads, cacheOps);
    assert PutsOk(x, threads, cacheOps);
  }

  lemma HitIsGot(x: Setup, s: State, key: Cache.Key)
    requires SetupOk(x) && x.caching.Some? && Cache.Live(x.caching.value, Slots(x, s), key, s.clock)
    ensures Got(x, s.cacheOps + [CH.Get(key, s.clock)], key, Cache.Lookup(Slots(x, s), key).value)
  {
    var cacheOps := s.cacheOps + [CH.Get(key, s.clock)];
    assert cacheOps[..|s.cacheOps|] == s.cacheOps;
    assert GotAt(x, cacheOps, |s.cacheOps|, key, Cache.Lookup(Slots(x, s), key).value);
  }

  lemma Missed(x: Setup, history: seq<SH.Op>, t: Thread)
    requires ThreadInv(x, history, t) && t.phase == AtCache
    ensures ThreadInv(x, history, t.(phase := AtExchange))
  {
    var t' := t.(phase := AtExchange);
    assert x.sessionTtl.Some? ==> LookedUp(x, history, t');
    assert WellSpent(x, t');
  }

  lemma WasHit(x: Setup, history: seq<SH.Op>, t: Thread, value: ChatResponse)
    requires ThreadInv(x, history, t) && t.phase == AtCache
    ensures ThreadInv(x, history, t.(phase := Done, hit := true, response := Some(value)))
  {
    var t' := t.(phase := Done, hit := true, response := Some(value));
    assert x.sessionTtl.Some? ==> LookedUp(x, history, t');
    assert WellSpent(x, t');
  }

  lemma {:induction false} CacheGetKeeps(x: Setup, s: State, tid: Tid)
    requires SetupOk(x) && Inv(x, s) && In(s, tid, AtCache)
    ensures Inv(x, AfterCacheGet(x, s, tid, s.threads[tid]))
  {
    var t := s.threads[tid];
    assert ThreadInv(x, s.history, t);
    Missed(x, s.history, t);
    if x.caching.None? {
      LocalStep(x, s, tid, t.(phase := AtExchange));
    } else {
      var key := KeyOf(x, t.request);
      if Cache.Live(x.caching.value, Slots(x, s), key, s.clock) {
        var value := Cache.Lookup(Slots(x, s), key).value;
        HitIsGot(x, s, key);
        WasHit(x, s.history, t, value);
        CacheStep(x, s, tid, t.(phase := Done, hit := true, response := Some(value)), CH.Get(key, s.clock));
      } else {
        CacheStep(x, s, tid, t.(phase := AtExchange), CH.Get(key, s.clock));
      }
    }
  }

  lemma Stored(x: Setup, history: seq<SH.Op>, t: Thread)
    requires ThreadInv(x, history, t) && t.phase == AtStore
    ensures ThreadInv(x, history, t.(phase := AtRecord))
    ensures t.kind.Chat? && !t.hit && t.response.Some?
  {
    var t' := t.(phase := AtRecord);
    assert x.sessionTtl.Some? ==> LookedUp(x, history, t');
    assert WellSpent(x, t');
  }

  lemma {:induction false} StoreKeeps(x: Setup, s: State, tid: Tid, stamp: nat)
    requires SetupOk(x) && Inv(x, s) && In(s, tid, AtStore) && s.clock <= stamp
    ensures Inv(x, AfterStore(x, s, tid, s.threads[tid], stamp))
  {
    var t := s.threads[tid];
    assert ThreadInv(x, s.history, t);
    Stored(x, s.history, t);
    if x.caching.None? {
      LocalStep(x, s, tid, t.(phase := AtRecord));
    } else {
      assert Produces(x, s.threads[tid], KeyOf(x, t.request), t.response.value);
      CacheStep(x, s, tid, t.(phase := AtRecord), CH.Put(KeyOf(x, t.request), t.response.value, s.clock, stamp));
    }
  }

  lemma ChatSpends(x: Setup, t: Thread, env: Environment)
    requires t.world == Nothing && t.kind.Chat? && !t.request.stream
    ensures WellSpent(x, Exchanged(x, t, env)) && SendsOwn(Exchanged(x, t, env))
  {
    var bad := DetectorOf(x.unicode);
    var o := Answer(x.(env := env), t.world, t.request);
    ConverseCounts(x.settings, bad, env, Nothing, t.request);
    ConverseSends(x.settings, bad, env, Nothing, t.request);
    assert Signed(Nothing, o.world) == o.world.ledger;
    forall cap: nat | Capped(x.settings, cap)
      ensures Sum(o.world.ledger) <= (if o.result.Err? then 2 else 1) * cap
    {
      SpendSafety(x.settings, bad, env, Nothing, t.request, cap);
    }
  }

  lemma StreamSpends(x: Setup, t: Thread, env: Environment)
    requires t.world == Nothing && t.kind.Stream?
    ensures WellSpent(x, Exchanged(x, t, env))
  {
    StreamCounts(x.settings.gate, env, Nothing, t.request);
    var o := OpenStream(x.settings.gate, env, t.world, t.request);
    assert Signed(Nothing, o.world) == o.world.ledger;
  }

  lemma StreamSendsOwn(x: Setup, t: Thread, env: Environment)
    requires t.world == Nothing && t.kind.Stream?
    ensures SendsOwn(Exchanged(x, t, env))
  {
    StreamFacts(x.settings.gate, env, Nothing, t.request);
    var o := OpenStream(x.settings.gate, env, t.world, t.request);
    assert SentSince(Nothing, o.world) == o.world.sent;
  }

  lemma ExchangedInv(x: Setup, history: seq<SH.Op>, t: Thread, env: Environment)
    requires ThreadInv(x, history, t) && t.phase == AtExchange
    requires WellSpent(x, Exchanged(x, t, env)) && SendsOwn(Exchanged(x, t, env))
    ensures ThreadInv(x, history, Exchanged(x, t, env))
  {
    var t' := Exchanged(x, t, env);
    assert x.sessionTtl.Some? ==> LookedUp(x, history, t');
    assert t.recorded.Some? ==> WasRecorded(x, history, t');
    assert t'.phase == AtStore ==> Answered(x, t');
  }

  lemma {:induction false} ExchangeKeeps(x: Setup, s: State, tid: Tid, env: Environment)
    requires SetupOk(x) && Inv(x, s) && In(s, tid, AtExchange)
    ensures Inv(x, SetThread(s, tid, Exchanged(x, s.threads[tid], env)))
  {
    var t := s.threads[tid];
    assert ThreadInv(x, s.history, t);
    if t.kind.Stream? {
      StreamSpends(x, t, env);
      StreamSendsOwn(x, t, env);
    } else {
      ChatSpends(x, t, env);
    }
    ExchangedInv(x, s.history, t, env);
    LocalStep(x, s, tid, Exchanged(x, t, env));
  }

  lemma {:induction false} CleanupKeeps(x: Setup, s: State)
    requires SetupOk(x) && Inv(x, s) && x.sessionTtl.Some?
    ensures Inv(x, s.(history := s.history + [SH.Cleanup(s.clock)]))
  {
    SH.Append(x.sessionTtl.value, s.history, SH.Cleanup(s.clock));
    HistoriesGrow(x, s.history, SH.Cleanup(s.clock), s.threads);
  }

  lemma {:induction false} StartKeeps(x: Setup, s: State, tid: Tid, kind: Kind, req: ChatRequest)
    requires SetupOk(x) && Inv(x, s) && tid !in s.threads
    ensures Inv(x, Next(x, s, Start(tid, kind, req)))
  {
    assert Sum([]) == 0;
    LocalStep(x, s, tid, Thread(kind, req, AtBalance, req, false, None, None, None, false, None, None, Nothing));
  }

  lemma {:induction false} LoadKeeps(x: Setup, s: State, tid: Tid)
    requires SetupOk(x) && Inv(x, s) && In(s, tid, AtBalance)
    ensures Inv(x, Next(x, s, LoadBalance(tid)))
  {
    assert ThreadInv(x, s.history, s.threads[tid]);
    LocalStep(x, s, tid, Loaded(x, s.balance, s.threads[tid]));
  }

  lemma {:induction false} NextKeeps(x: Setup, s: State, step: Step)
    requires SetupOk(x) && Inv(x, s)
    ensures Inv(x, Next(x, s, step))
  {
    match step
    case Tick(_) =>
    case SetBalance(_) =>
    case CleanupExpired =>
      if x.sessionTtl.Some? {
        CleanupKeeps(x, s);
      }
    case Start(tid, kind, req) =>
      if tid !in s.threads {
        StartKeeps(x, s, tid, kind, req);
      }
    case LoadBalance(tid) =>
      if In(s, tid, AtBalance) {
        LoadKeeps(x, s, tid);
      }
    case LookupSession(tid, stamp) =>
      if In(s, tid, AtSession) && s.clock <= stamp {
        LookupKeeps(x, s, tid, stamp);
      }
    case GetCached(tid) =>
      if In(s, tid, AtCache) {
        CacheGetKeeps(x, s, tid);
      }
    case DoExchange(tid, env) =>
      if In(s, tid, AtExchange) {
        ExchangeKeeps(x, s, tid, env);
      }
    case StoreResponse(tid, stamp) =>
      if In(s, tid, AtStore) && s.clock <= stamp {
        StoreKeeps(x, s, tid, stamp);
      }
    case RecordRequest(tid) =>
      if In(s, tid, AtRecord) {
        RecordKeeps(x, s, tid);
      }
  }

  lemma {:induction false} Reachable(x: Setup, steps: seq<Step>)
    requires SetupOk(x)
    ensures Inv(x, Exec(x, steps))
  {
    if steps != [] {
      Reachable(x, steps[..|steps| - 1]);
      NextKeeps(x, Exec(x, steps[..|steps| - 1]), steps[|steps| - 1]);
    }
  }

  // ---------------------------------------------------------------- what holds in every reachable state

  /** A call meets the gateway and signer of a step of its own. */
  lemma NextEnv(x: Setup, s: State, step: Step, tid: Tid)
    requires SetupOk(x) && tid in Next(x, s, step).threads && Next(x, s, step).threads[tid].env.Some?
    ensures var env := Next(x, s, step).threads[tid].env;
            (tid in s.threads && s.threads[tid].env == env) || (step == DoExchange(tid, env.value) && In(s, tid, AtExchange))
  {
  }

  lemma {:induction false} EnvIsOfStep(x: Setup, steps: seq<Step>, tid: Tid) returns (k: nat)
    requires SetupOk(x) && tid in Exec(x, steps).threads && Exec(x, steps).threads[tid].env.Some?
    ensures k < |steps| && steps[k] == DoExchange(tid, Exec(x, steps).threads[tid].env.value)
    ensures In(Exec(x, steps[..k]), tid, AtExchange)
  {
    k := |steps| - 1;
    var before := Exec(x, steps[..k]);
    NextEnv(x, before, steps[k], tid);
    if tid in before.threads && before.threads[tid].env == Exec(x, steps).threads[tid].env {
      var n := k;
      k := EnvIsOfStep(x, steps[..n], tid);
      assert steps[..n][..k] == steps[..k];
    }
  }

  /**
   Step `k` of the run was the exchange of chat `tid` for its final request: with the gateway and signer it met there it
   sent and signed what it did and got `value`, which is what the gateway replied last.
   */
  ghost predicate ExchangedFor(x: Setup, steps: seq<Step>, k: nat, tid: Tid, value: ChatResponse)
    requires SetupOk(x) && tid in Exec(x, steps).threads
  {
    var t := Exec(x, steps).threads[tid];
    && k < |steps| && steps[k].DoExchange? && steps[k].tid == tid && In(Exec(x, steps[..k]), tid, AtExchange)
    && t.kind.Chat? && !t.hit && t.request.messages == t.original.messages
    && Answer(x.(env := steps[k].env), Nothing, t.request) == Outcome(t.world, Ok(value))
    && LastAnswer(steps[k].env, t.world) == Some(value)
  }

  /**
   Coherence: every cache entry is the response that the gateway gave last in the successful exchange some chat made at
   a step of this run, for a request with that key.
   */
  lemma {:induction false} CacheCoherence(x: Setup, steps: seq<Step>, slot: Cache.Slot<ChatResponse>)
    returns (tid: Tid, k: nat)
    requires SetupOk(x) && x.caching.Some?
    requires slot in Slots(x, Exec(x, steps))
    ensures tid in Exec(x, steps).threads
    ensures var request := Exec(x, steps).threads[tid].request;
            slot.key == x.hashing.cacheKey(request.model, request.messages)
    ensures ExchangedFor(x, steps, k, tid, slot.value)
  {
    Reachable(x, steps);
    var s := Exec(x, steps);
    SlotsWerePut(x.caching.value, s.cacheOps, slot);
    tid, k := ProducerExchanged(x, steps, slot.key, slot.value);
  }

  lemma {:induction false} ProducerExchanged(x: Setup, steps: seq<Step>, key: Cache.Key, value: ChatResponse)
    returns (tid: Tid, k: nat)
    requires SetupOk(x) && Inv(x, Exec(x, steps)) && Produced(x, Exec(x, steps).threads, key, value)
    ensures tid in Exec(x, steps).threads && KeyOf(x, Exec(x, steps).threads[tid].request) == key
    ensures ExchangedFor(x, steps, k, tid, value)
  {
    var s := Exec(x, steps);
    tid :| tid in s.threads && Produces(x, s.threads[tid], key, value);
    var t := s.threads[tid];
    assert ThreadInv(x, s.history, t);
    k := EnvIsOfStep(x, steps, tid);
    ConverseAnswers(x.settings, DetectorOf(x.unicode), t.env.value, Nothing, t.request);
  }

  ghost predicate RecordedByOther(threads: map<Tid, Thread>, tid: Tid, j: nat) {
    exists other :: other in threads && other != tid && threads[other].recorded == Some(j)
  }

  lemma HitFacts(x: Setup, s: State, tid: Tid) returns (g: nat)
    requires SetupOk(x) && Inv(x, s) && tid in s.threads && s.threads[tid].hit
    ensures var t := s.threads[tid];
            && t.world == Nothing && t.recorded.None? && t.response.Some?
            && GotAt(x, s.cacheOps, g, KeyOf(x, t.request), t.response.value)
            && forall j: nat :: j < |s.history| && s.history[j].Record? ==> RecordedByOther(s.threads, tid, j)
  {
    var t := s.threads[tid];
    assert ThreadInv(x, s.history, t) && HitOk(x, s.cacheOps, t);
    forall j: nat | j < |s.history| && s.history[j].Record? ensures RecordedByOther(s.threads, tid, j) {
      assert RecordedBy(s.threads, j);
    }
    g :| GotAt(x, s.cacheOps, g, KeyOf(x, t.request), t.response.value);
  }

  lemma {:induction false} CacheTimedPrefix(ops: seq<CH.Op<ChatResponse>>, g: nat)
    requires CH.Timed(ops) && g < |ops|
    ensures CH.Timed(ops[..g]) && CH.Clock(ops[..g]) <= ops[g].now
  {
    CH.TimedPrefix(ops, g + 1);
    assert ops[..g + 1][..g] == ops[..g];
  }

  /**
   A chat that hits has sent and signed nothing, and every record in the session history is another call's. Its answer is
   the one another chat got from its own exchange for the same key and stored at most a time to live before the hit.
   */
  lemma {:induction false} HitsAreSilentAndFresh(x: Setup, steps: seq<Step>, tid: Tid)
    returns (source: Tid, k: nat, g: nat, i: nat)
    requires SetupOk(x) && tid in Exec(x, steps).threads && Exec(x, steps).threads[tid].hit
    ensures var s := Exec(x, steps); var t := s.threads[tid];
            && t.world == Nothing && t.response.Some?
            && (forall j: nat :: j < |s.history| && s.history[j].Record? ==> RecordedByOther(s.threads, tid, j))
            && t.recorded.None?
            && source in s.threads && source != tid
            && (var key := x.hashing.cacheKey(t.request.model, t.request.messages);
                && GotAt(x, s.cacheOps, g, key, t.response.value)
                && i < g && CH.EffectivePutAt(x.caching.value, s.cacheOps, i, key)
                && x.hashing.cacheKey(s.threads[source].request.model, s.threads[source].request.messages) == key)
            && s.cacheOps[i].value == t.response.value
            && s.cacheOps[g].now - s.cacheOps[i].stamp <= x.caching.value.ttl
            && ExchangedFor(x, steps, k, source, t.response.value)
  {
    Reachable(x, steps);
    var s := Exec(x, steps);
    g := HitFacts(x, s, tid);
    i := FreshPut(x, s, g, KeyOf(x, s.threads[tid].request), s.threads[tid].response.value);
    source, k := ProducerExchanged(x, steps, KeyOf(x, s.threads[tid].request), s.threads[tid].response.value);
  }

  /** Calls of this run whose final requests have one cache key have the same final model and messages. */
  ghost predicate NoCollision(h: Hashing, threads: map<Tid, Thread>) {
    forall a, b :: a in threads && b in threads ==> SameIfSameKey(h, threads[a].request, threads[b].request)
  }

  ghost predicate SameIfSameKey(h: Hashing, q: ChatRequest, r: ChatRequest) {
    h.cacheKey(q.model, q.messages) == h.cacheKey(r.model, r.messages) ==> q.model == r.model && q.messages == r.messages
  }

  /** If no keys collide in the run, as with an injective hash, a chat that hits gets what another chat got for the same final model and the same messages. */
  lemma {:induction false} HitsAnswerTheSameRequest(x: Setup, steps: seq<Step>, tid: Tid) returns (source: Tid, k: nat)
    requires SetupOk(x) && tid in Exec(x, steps).threads && Exec(x, steps).threads[tid].hit
    requires NoCollision(x.hashing, Exec(x, steps).threads)
    ensures var s := Exec(x, steps); var t := s.threads[tid];
            && source in s.threads && source != tid && t.response.Some?
            && s.threads[source].request.model == t.request.model
            && s.threads[source].original.messages == t.original.messages
            && ExchangedFor(x, steps, k, source, t.response.value)
  {
    var g, i;
    source, k, g, i := HitsAreSilentAndFresh(x, steps, tid);
    Reachable(x, steps);
    var s := Exec(x, steps);
    assert ThreadInv(x, s.history, s.threads[tid]) && SameIfSameKey(x.hashing, s.threads[source].request, s.threads[tid].request);
  }

  /**
   The session history counts exactly the calls that should count: chats answered by the gateway and streams looked up, each
   once, under the session and content hashes of the caller's own messages.
   */
  lemma {:induction false} RecordsAreTheCalls(x: Setup, steps: seq<Step>)
    requires SetupOk(x)
    ensures var s := Exec(x, steps);
            && (forall tid :: tid in s.threads ==> RecordedRight(x, s.history, s.threads[tid]))
            && (forall j: nat :: j < |s.history| && s.history[j].Record? ==> RecordedBy(s.threads, j))
            && RecordsApart(s.threads)
  {
    Reachable(x, steps);
    var s := Exec(x, steps);
    forall tid | tid in s.threads ensures RecordedRight(x, s.history, s.threads[tid]) {
      assert ThreadInv(x, s.history, s.threads[tid]);
    }
  }

  ghost predicate RecordedRight(x: Setup, history: seq<SH.Op>, t: Thread) {
    && (t.recorded.Some? <==> x.sessionTtl.Some? && Counts(t))
    && (t.recorded.Some? ==>
          t.recorded.value < |history|
          && history[t.recorded.value]
             == SH.Record(x.hashing.sessionId(t.original.messages), x.hashing.content(t.original.messages)))
  }

  /** Whatever a call sends is its final request with the caller's messages; only a stream's second request streams. */
  lemma {:induction false} EverySendIsTheCalls(x: Setup, steps: seq<Step>, tid: Tid, i: nat)
    requires SetupOk(x) && tid in Exec(x, steps).threads && i < |Exec(x, steps).threads[tid].world.sent|
    ensures var t := Exec(x, steps).threads[tid];
            && t.world.sent[i].request.messages == t.original.messages
            && t.world.sent[i].request.model == t.request.model
            && (t.world.sent[i].request.stream <==> t.kind.Stream? && i == 1)
  {
    Reachable(x, steps);
    assert ThreadInv(x, Exec(x, steps).history, Exec(x, steps).threads[tid]);
  }

  lemma FreshPut(x: Setup, s: State, g: nat, key: Cache.Key, value: ChatResponse) returns (i: nat)
    requires SetupOk(x) && Inv(x, s) && GotAt(x, s.cacheOps, g, key, value)
    ensures i < g && CH.EffectivePutAt(x.caching.value, s.cacheOps, i, key)
    ensures s.cacheOps[i].value == value && s.cacheOps[g].now - s.cacheOps[i].stamp <= x.caching.value.ttl
    ensures Produced(x, s.threads, key, value)
  {
    CacheTimedPrefix(s.cacheOps, g);
    i := CH.HitsAreFresh(x.caching.value, s.cacheOps[..g], key, s.cacheOps[g].now);
    CH.EffectivePutPrefix(x.caching.value, s.cacheOps, g, i, key);
  }

  /**
   Affinity: once looked up, a fallback call carries the free model; any other carries the model offered by the call that
   created the session it fell into, which is that call's own model unless that call had itself fallen back.
   */
  lemma {:induction false} ModelAffinity(x: Setup, steps: seq<Step>, tid: Tid) returns (i: nat, creator: Tid)
    requires SetupOk(x) && x.sessionTtl.Some?
    requires tid in Exec(x, steps).threads && Exec(x, steps).threads[tid].lookup.Some?
    ensures creator in Exec(x, steps).threads && Follows(x, Exec(x, steps), tid, creator, i)
  {
    Reachable(x, steps);
    i, creator := CreatorOf(x, Exec(x, steps), tid);
  }

  /** Call `tid` fell into the session that `creator` created as operation `i`, and carries the model this calls for. */
  ghost predicate Follows(x: Setup, s: State, tid: Tid, creator: Tid, i: nat)
    requires x.sessionTtl.Some? && tid in s.threads && creator in s.threads
  {
    var t, c := s.threads[tid], s.threads[creator];
    var id := x.hashing.sessionId(t.original.messages);
    && c.lookup == Some(i) && x.hashing.sessionId(c.original.messages) == id
    && SH.CreatesAt(x.sessionTtl.value, s.history, i, id)
    && t.lookup.Some? && (t.lookup.value == i || (i < t.lookup.value && InLifetime(x, s, i, t.lookup.value)))
    && (if t.fallback then x.fallback.Some? && t.request.model == x.fallback.value
        else OffersOwnModel(x, c, t.request.model))
  }

  lemma WasLookedUp(x: Setup, history: seq<SH.Op>, t: Thread)
    requires ThreadInv(x, history, t) && x.sessionTtl.Some? && t.lookup.Some?
    ensures LookedUp(x, history, t)
  {
  }

  lemma CreatorOf(x: Setup, s: State, tid: Tid) returns (i: nat, creator: Tid)
    requires SetupOk(x) && Inv(x, s) && x.sessionTtl.Some? && tid in s.threads && s.threads[tid].lookup.Some?
    ensures creator in s.threads && Follows(x, s, tid, creator, i)
  {
    var t := s.threads[tid];
    WasLookedUp(x, s.history, t);
    i := SH.EveryCallHasCreation(x.sessionTtl.value, s.history, t.lookup.value);
    assert LookupOf(s.threads, i);
    creator :| creator in s.threads && s.threads[creator].lookup == Some(i);
    WasLookedUp(x, s.history, s.threads[creator]);
  }

  /** Two calls looked up in one session lifetime, neither fallen back, carry the same model. */
  lemma {:induction false} OneModelPerLifetime(x: Setup, steps: seq<Step>, a: Tid, b: Tid, i: nat)
    requires SetupOk(x) && x.sessionTtl.Some?
    requires a in Exec(x, steps).threads && b in Exec(x, steps).threads
    requires var s := Exec(x, steps);
             && s.threads[a].lookup.Some? && s.threads[b].lookup.Some?
             && !s.threads[a].fallback && !s.threads[b].fallback
             && x.hashing.sessionId(s.threads[a].original.messages) == x.hashing.sessionId(s.threads[b].original.messages)
             && SH.CreatesAt(x.sessionTtl.value, s.history, i, x.hashing.sessionId(s.threads[a].original.messages))
             && InLifetime(x, s, i, s.threads[a].lookup.value) && InLifetime(x, s, i, s.threads[b].lookup.value)
    ensures Exec(x, steps).threads[a].request.model == Exec(x, steps).threads[b].request.model
            == Exec(x, steps).history[i].model
  {
    Reachable(x, steps);
    var s := Exec(x, steps);
    assert ThreadInv(x, s.history, s.threads[a]) && ThreadInv(x, s.history, s.threads[b]);
    var id := x.hashing.sessionId(s.threads[a].original.messages);
    SH.CallsInLifetimeAgree(x.sessionTtl.value, s.history, i, s.threads[a].lookup.value, id);
    SH.CallsInLifetimeAgree(x.sessionTtl.value, s.history, i, s.threads[b].lookup.value, id);
  }

  ghost predicate InLifetime(x: Setup, s: State, i: nat, c: nat)
    requires x.sessionTtl.Some?
  {
    && i < |s.history| && s.history[i].GetOrCreate? && c < |s.history| && s.history[c].GetOrCreate?
    && s.history[i].stamp <= s.history[c].now < s.history[i].stamp + x.sessionTtl.value
  }

  ghost function LedgerOf(threads: map<Tid, Thread>, tids: seq<Tid>): seq<Payment>
    requires forall i :: 0 <= i < |tids| ==> tids[i] in threads
  {
    if tids == [] then [] else LedgerOf(threads, tids[..|tids| - 1]) + threads[tids[|tids| - 1]].world.ledger
  }

  /** The caps some calls may use up together: one each, and a chat that fails another. */
  function Allowances(threads: map<Tid, Thread>, tids: seq<Tid>): nat
    requires forall i :: 0 <= i < |tids| ==> tids[i] in threads
  {
    if tids == [] then 0 else Allowances(threads, tids[..|tids| - 1]) + Allowance(threads[tids[|tids| - 1]])
  }

  lemma {:induction false} AllowancesCount(threads: map<Tid, Thread>, tids: seq<Tid>)
    requires forall i :: 0 <= i < |tids| ==> tids[i] in threads
    ensures |tids| <= Allowances(threads, tids) <= 2 * |tids|
    ensures (forall i :: 0 <= i < |tids| ==> threads[tids[i]].kind.Stream?) ==> Allowances(threads, tids) == |tids|
  {
    if tids != [] {
      AllowancesCount(threads, tids[..|tids| - 1]);
    }
  }

  ghost predicate Frugal(x: Setup, t: Thread, cap: nat) {
    && PaysAsAsked(x, t) && Sum(t.world.ledger) <= Allowance(t) * cap
    && forall p :: p in t.world.ledger ==> Gated(x.settings.gate, p)
  }

  lemma ThreadSpend(x: Setup, s: State, tid: Tid, cap: nat)
    requires SetupOk(x) && Inv(x, s) && Capped(x.settings, cap) && tid in s.threads
    ensures Frugal(x, s.threads[tid], cap)
  {
    var t := s.threads[tid];
    assert ThreadInv(x, s.history, t);
    if t.env.Some? {
      PaidIsGated(x.settings.gate, t.env.value, Nothing, t.world);
      assert Signed(Nothing, t.world) == t.world.ledger;
    }
  }

  /**
   Over any run, any calls together sign for at most one cap each and another for each chat that failed, and each call
   signs what it sends, every transaction gated and for the 402 just received.
   */
  lemma {:induction false} TotalSpend(x: Setup, steps: seq<Step>, tids: seq<Tid>, cap: nat)
    requires SetupOk(x) && Capped(x.settings, cap)
    requires forall i :: 0 <= i < |tids| ==> tids[i] in Exec(x, steps).threads
    ensures var threads := Exec(x, steps).threads;
            && Sum(LedgerOf(threads, tids)) <= Allowances(threads, tids) * cap <= 2 * |tids| * cap
            && (forall i :: 0 <= i < |tids| ==> PaysAsAsked(x, threads[tids[i]]))
            && (forall p :: p in LedgerOf(threads, tids) ==> Gated(x.settings.gate, p))
  {
    Reachable(x, steps);
    var s := Exec(x, steps);
    forall i | 0 <= i < |tids| ensures Frugal(x, s.threads[tids[i]], cap) {
      ThreadSpend(x, s, tids[i], cap);
    }
    LedgerSpend(x, s.threads, tids, cap);
    AllowancesCount(s.threads, tids);
    TimesMonotone(Allowances(s.threads, tids), 2 * |tids|, cap);
  }

  ghost predicate WithinCaps(x: Setup, ledger: seq<Payment>, n: nat, cap: nat) {
    Sum(ledger) <= n * cap && forall p :: p in ledger ==> Gated(x.settings.gate, p)
  }

  lemma {:induction false} LedgerSpend(x: Setup, threads: map<Tid, Thread>, tids: seq<Tid>, cap: nat)
    requires forall i :: 0 <= i < |tids| ==> tids[i] in threads && Frugal(x, threads[tids[i]], cap)
    ensures WithinCaps(x, LedgerOf(threads, tids), Allowances(threads, tids), cap)
  {
    if tids != [] {
      var n := |tids| - 1;
      LedgerSpend(x, threads, tids[..n], cap);
      assert Frugal(x, threads[tids[n]], cap);
      AddLedger(x, LedgerOf(threads, tids[..n]), threads[tids[n]], Allowances(threads, tids[..n]), cap);
      assert Allowances(threads, tids) == Allowances(threads, tids[..n]) + Allowance(threads[tids[n]]);
    } else {
      assert Sum([]) == 0;
    }
  }

  lemma AddLedger(x: Setup, ledger: seq<Payment>, t: Thread, n: nat, cap: nat)
    requires WithinCaps(x, ledger, n, cap) && Frugal(x, t, cap)
    ensures WithinCaps(x, ledger + t.world.ledger, n + Allowance(t), cap)
  {
    SumAppend(ledger, t.world.ledger);
    Distribute(n, Allowance(t), cap);
  }

  lemma Distribute(m: nat, n: nat, c: nat)
    ensures (m + n) * c == m * c + n * c
  {
  }
}
