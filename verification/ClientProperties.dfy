/** Properties of whole calls, across the balance guard, sessions, cache and paid exchange. */
module ClientProperties {
  import opened Prelude
  import opened Quality
  import opened Payment
  import opened Exchange
  import opened Spend
  import opened Client
  import Cache
  import CacheHistory
  import Session

  /**
   A chat, whatever path it takes, signs what it sends, every transaction gated and for the 402 just received, for at most
   twice the cap in all and for the cap if it succeeds.
   */
  lemma ChatIsCapped(x: Setup, balance: u64, st: Snapshot, req: ChatRequest, t: Times, cap: nat)
    requires SetupOk(x) && Capped(x.settings, cap)
    ensures var (after, r) := ChatSpec(x, balance, st, req, t);
            Extends(st.world, after.world)
            && WithinBudget(cap, Sum(Signed(st.world, after.world)), r)
            && PaidAsAsked(x.settings.gate, x.env, st.world, after.world)
            && forall p :: p in Signed(st.world, after.world) ==> Gated(x.settings.gate, p)
  {
    assert Signed(st.world, st.world) == [] && SentSince(st.world, st.world) == [];
    assert Sum([]) == 0;
    var p := Prepare(x, balance, st.sessions, req.(stream := false), t).request;
    SpendSafety(x.settings, DetectorOf(x.unicode), x.env, st.world, p, cap);
    ConverseCounts(x.settings, DetectorOf(x.unicode), x.env, st.world, p);
  }

  /** A stream sends at most two requests and signs at most once, within the cap, gated and for the 402 just received. */
  lemma StreamIsCapped(x: Setup, balance: u64, st: Snapshot, req: ChatRequest, t: Times, cap: nat)
    requires Capped(x.settings, cap)
    ensures var (after, r) := StreamSpec(x, balance, st, req, t);
            Extends(st.world, after.world)
            && |Signed(st.world, after.world)| <= 1 && |SentSince(st.world, after.world)| <= 2
            && Sum(Signed(st.world, after.world)) <= cap
            && PaidAsAsked(x.settings.gate, x.env, st.world, after.world)
            && forall p :: p in Signed(st.world, after.world) ==> Gated(x.settings.gate, p)
  {
    StreamCounts(x.settings.gate, x.env, st.world, Prepare(x, balance, st.sessions, req, t).request);
  }

  /** After a lookup the session holds the model the lookup returned. */
  lemma LookupModel(x: Setup, balance: u64, sessions: Session.Sessions, req: ChatRequest, t: Times)
    requires x.sessionTtl.Some?
    ensures var p, id := Prepare(x, balance, sessions, req, t), x.hashing.sessionId(req.messages);
            && id in p.sessions
            && (UsesFallback(x.fallback, balance) ==> p.request.model == x.fallback.value)
            && (!UsesFallback(x.fallback, balance) ==> p.request.model == p.sessions[id].model)
  {
  }

  lemma SameKeyAgain(x: Setup, balance: u64, before: Session.Sessions, between: Session.Sessions, req: ChatRequest,
                     t1: Times, t2: Times)
    requires var p := Prepare(x, balance, before, req, t1);
             between == Recorded(x, p.sessions, p.request)
    requires x.sessionTtl.Some? ==>
               Session.Live(x.sessionTtl.value, between, x.hashing.sessionId(req.messages), t2.read)
    ensures Prepare(x, balance, between, req, t2).request == Prepare(x, balance, before, req, t1).request
  {
    if x.sessionTtl.Some? {
      LookupModel(x, balance, before, req, t1);
    }
  }

  /**
   Repeating a chat that succeeded is free while its answer and its session live: the second call returns the same
   response from the cache, sends nothing and signs nothing.
   */
  lemma RepeatedChatIsFree(x: Setup, balance: u64, st: Snapshot, req: ChatRequest, t1: Times, t2: Times)
    requires SetupOk(x) && x.caching.Some? && Cache.Wf(st.slots, x.caching.value.capacity)
    requires t1.Ordered() && t2.Ordered() && t1.stamp <= t2.read && t2.get - t1.stamp <= x.caching.value.ttl
    requires var p := Prepare(x, balance, st.sessions, req.(stream := false), t1);
             Cached(x, st.slots, p.request, t1.get).None?
    requires ChatSpec(x, balance, st, req, t1).1.Ok?
    requires x.sessionTtl.Some? ==>
               Session.Live(x.sessionTtl.value, ChatSpec(x, balance, st, req, t1).0.sessions,
                            x.hashing.sessionId(req.messages), t2.read)
    ensures var (st1, r1) := ChatSpec(x, balance, st, req, t1);
            var (st2, r2) := ChatSpec(x, balance, st1, req, t2);
            r2 == r1 && st2.world == st1.world
  {
    var plain := req.(stream := false);
    var p := Prepare(x, balance, st.sessions, plain, t1);
    var (st1, r1) := ChatSpec(x, balance, st, req, t1);
    SameKeyAgain(x, balance, st.sessions, st1.sessions, plain, t1, t2);
    var cfg, key := x.caching.value, KeyOf(x, p.request);
    var slots := Cache.AfterGet(cfg, st.slots, key, t1.get);
    Cache.WithoutWf(st.slots, key);
    assert !Cache.Has(slots, key);
    CacheHistory.PushNew(slots, cfg.capacity, Cache.Slot(key, r1.value, t1.stamp));
  }

  // ---------------------------------------------------------------- what a call reports and leaves behind

  /** The answer the cache holds for a final model and messages, if that is at most the time to live old. */
  ghost function Cached(x: Setup, slots: Slots, req: ChatRequest, now: nat): Option<ChatResponse> {
    if x.caching.None? then None
    else Cache.Hit(x.caching.value, slots, x.hashing.cacheKey(req.model, req.messages), now)
  }

  /**
   A chat returns a cached answer for its final model and messages without sending or signing anything; otherwise it sends
   only its final request and reports what the gateway's last reply means, or that the budget was exceeded.
   */
  lemma ChatReports(x: Setup, balance: u64, st: Snapshot, req: ChatRequest, t: Times)
    requires SetupOk(x)
    ensures var (after, r) := ChatSpec(x, balance, st, req, t);
            var final := Prepare(x, balance, st.sessions, req.(stream := false), t).request;
            var cached := Cached(x, st.slots, final, t.get);
            if cached.Some? then r == Ok(cached.value) && after.world == st.world
            else
              && Extends(st.world, after.world) && SendsOnly(final, |st.world.sent|, st.world, after.world)
              && Reports(x.settings.gate, x.env, after.world, r)
              && (var total := Saturated(Sum(Signed(st.world, after.world)));
                  forall spent: u64, cap: u64 ::
                    r == Err(BudgetExceeded(spent, cap))
                    <==> LastAnswer(x.env, after.world).Some? && x.settings.gate.maxPayment == Some(cap) && spent == total > cap)
  {
    var final := Prepare(x, balance, st.sessions, req.(stream := false), t).request;
    ConverseReports(x.settings, DetectorOf(x.unicode), x.env, st.world, final);
    ConverseSends(x.settings, DetectorOf(x.unicode), x.env, st.world, final);
  }

  /** A stream opens, or fails, as the replies to its probe and to its streaming request say. */
  lemma StreamOpens(x: Setup, balance: u64, st: Snapshot, req: ChatRequest, t: Times)
    ensures var (after, r) := StreamSpec(x, balance, st, req, t);
            var last := x.env.gateway(after.world.sent);
            && Extends(st.world, after.world)
            && (r.Ok? <==> |SentSince(st.world, after.world)| == 2 && last.Reply? && 200 <= last.status < 300)
            && (forall e :: r == Err(e) <==> !r.Ok? && StreamFailsWith(x.settings.gate, x.env, st.world, after.world, e))
            && after.slots == st.slots
  {
    StreamOpensIff(x.settings.gate, x.env, st.world, Prepare(x, balance, st.sessions, req, t).request);
  }

  /** None of the detector's rules applies. */
  ghost predicate Healthy(u: Unicode, response: ChatResponse) {
    !AllBlank(u, response) && !Refuses(u, response) && !Repetitive(AllWords(u, response.choices)) && !CutOff(u, response)
  }

  lemma DetectorIff(u: Unicode, response: ChatResponse)
    requires u.isSpace(' ')
    ensures DetectorOf(u)(response) <==> !Healthy(u, response)
  {
    VerdictIff(u, response);
  }

  /**
   With the quality check on, a chat that succeeds without the cache returns the first healthy response, or the one of the
   last allowed attempt: `n` attempts before it got unhealthy ones, and `n + 1` unpaid probes were sent in all.
   */
  lemma ChatRetries(x: Setup, balance: u64, st: Snapshot, req: ChatRequest, t: Times) returns (n: nat)
    requires SetupOk(x) && x.settings.qualityCheck && x.unicode.isSpace(' ')
    requires var final := Prepare(x, balance, st.sessions, req.(stream := false), t).request;
             Cached(x, st.slots, final, t.get).None? && ChatSpec(x, balance, st, req, t).1.Ok?
    ensures var (after, r) := ChatSpec(x, balance, st, req, t);
            var final := Prepare(x, balance, st.sessions, req.(stream := false), t).request;
            && Extends(st.world, after.world)
            && |SentSince(st.world, after.world)| == n + 1 + |Signed(st.world, after.world)|
            && n <= x.settings.maxRetries && (Healthy(x.unicode, r.value) || n == x.settings.maxRetries)
            && forall i: nat :: i < n ==> UnhealthyHead(x, st.world, final, i)
  {
    var s, bad := x.settings, DetectorOf(x.unicode);
    var final := Prepare(x, balance, st.sessions, req.(stream := false), t).request;
    RetryOutcome(s, bad, x.env, st.world, final, 0);
    n :| StopsAt(s, bad, x.env, st.world, final, n);
    RetryOutcome(s, bad, x.env, st.world, final, n);
    HeadFacts(s, bad, x.env, st.world, final, n);
    DetectorIff(x.unicode, HeadAt(s, bad, x.env, st.world, final, n).value.response);
    forall i: nat | i < n ensures UnhealthyHead(x, st.world, final, i) {
      HeadsAreDegraded(s, bad, x.env, st.world, final, i, n);
      DetectorIff(x.unicode, HeadAt(s, bad, x.env, st.world, final, i).value.response);
    }
  }

  /** The response in hand after attempt `i` was unhealthy. */
  ghost predicate UnhealthyHead(x: Setup, w: World, final: ChatRequest, i: nat) {
    var head := HeadAt(x.settings, DetectorOf(x.unicode), x.env, w, final, i);
    head.Some? && !Healthy(x.unicode, head.value.response)
  }

  ghost predicate SameElsewhere(a: Session.Sessions, b: Session.Sessions, id: string) {
    forall other :: other != id ==> (other in a <==> other in b) && (other in a ==> a[other] == b[other])
  }

  /**
   The first two steps change nothing of a request but its model. Without sessions that is the free model on a fallback and
   else the caller's; with sessions a session younger than the time to live is left alone and gives its model, any other
   is replaced by a fresh one with the model just said; a fallback keeps the free model all the same.
   */
  lemma PrepareFacts(x: Setup, balance: u64, sessions: Session.Sessions, req: ChatRequest, t: Times)
    requires t.Ordered()
    ensures var p, id := Prepare(x, balance, sessions, req, t), x.hashing.sessionId(req.messages);
            var fallback := x.fallback.Some? && balance == 0;
            var offered := if fallback then x.fallback.value else req.model;
            && p.request == req.(model := p.request.model)
            && (fallback || x.sessionTtl.None? ==> p.request.model == offered)
            && (x.sessionTtl.None? ==> p.sessions == sessions)
            && (x.sessionTtl.Some? ==>
                  && id in p.sessions && SameElsewhere(p.sessions, sessions, id)
                  && (!fallback ==> p.request.model == p.sessions[id].model)
                  && p.sessions[id] == if id in sessions && Elapsed(t.read, sessions[id].created) < x.sessionTtl.value
                                       then sessions[id]
                                       else Session.Entry(offered, t.created, 0, [], false))
  {
  }

  /** Only a chat that was answered by the gateway counts in its session, once and under its content hash. */
  lemma ChatRecords(x: Setup, balance: u64, st: Snapshot, req: ChatRequest, t: Times)
    requires SetupOk(x)
    ensures var (after, r) := ChatSpec(x, balance, st, req, t);
            var p, id := Prepare(x, balance, st.sessions, req.(stream := false), t), x.hashing.sessionId(req.messages);
            if r.Err? || x.sessionTtl.None? || Cached(x, st.slots, p.request, t.get).Some? then after.sessions == p.sessions
            else RecordedOnce(p.sessions, after.sessions, id, x.hashing.content(req.messages))
  {
  }

  /** A stream counts in its session whatever becomes of it. */
  lemma StreamRecords(x: Setup, balance: u64, st: Snapshot, req: ChatRequest, t: Times)
    ensures var (after, _) := StreamSpec(x, balance, st, req, t);
            var p, id := Prepare(x, balance, st.sessions, req, t), x.hashing.sessionId(req.messages);
            if x.sessionTtl.None? then after.sessions == p.sessions
            else RecordedOnce(p.sessions, after.sessions, id, x.hashing.content(req.messages))
  {
  }

  /** The entry of `id` has one more request, the latest in its window. */
  ghost predicate RecordedOnce(before: Session.Sessions, after: Session.Sessions, id: string, hash: u64) {
    && SameElsewhere(before, after, id) && id in before && id in after
    && after[id].model == before[id].model && after[id].created == before[id].created
    && after[id].requestCount == before[id].requestCount + 1
    && after[id].recent != [] && after[id].recent[|after[id].recent| - 1] == hash
  }
}
