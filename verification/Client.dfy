/**
 The client: balance guard, session lookup, cache, paid exchange, cache store and session update, in that order.
 The methods follow the source; `ChatSpec` and `StreamSpec` say what they do to the client's state.
 */
module Client {
  import opened Prelude
  import opened Quality
  import opened Payment
  import opened Exchange
  import Cache
  import Session

  /** The three hash functions, about which nothing is assumed. */
  datatype Hashing = Hashing(cacheKey: (string, seq<Message>) -> Cache.Key,
                             sessionId: seq<Message> -> string,
                             content: seq<Message> -> u64)

  /** The balance value that means no poll has succeeded yet. */
  const NOT_POLLED: u64 := U64_MAX

  function UsesFallback(fallback: Option<string>, balance: u64): bool {
    if fallback.None? then false
    else if balance == NOT_POLLED then false
    else balance == 0
  }

  /** The model a request is looked up with: its own, or the free one if the balance is known to be zero. */
  function OfferedModel(fallback: Option<string>, balance: u64, model: string): string {
    if UsesFallback(fallback, balance) then fallback.value else model
  }

  /** The clock readings of one call, in the order they are taken. */
  datatype Times = Times(read: nat, write: nat, created: nat, get: nat, put: nat, stamp: nat) {
    predicate Ordered() {
      read <= write <= created <= get <= put <= stamp
    }
  }

  /** What a call may depend on besides the client's state. */
  datatype Setup = Setup(settings: Settings, fallback: Option<string>, hashing: Hashing, unicode: Unicode, env: Environment,
                         caching: Option<Cache.Config>, sessionTtl: Option<nat>)

  type Slots = seq<Cache.Slot<ChatResponse>>

  datatype Snapshot = Snapshot(world: World, slots: Slots, sessions: Session.Sessions)

  /** A request whose model is final, with the sessions after the lookup. */
  datatype Prepared = Prepared(request: ChatRequest, sessions: Session.Sessions)

  function Prepare(x: Setup, balance: u64, sessions: Session.Sessions, req: ChatRequest, t: Times): Prepared {
    var offered := OfferedModel(x.fallback, balance, req.model);
    if x.sessionTtl.None? then Prepared(req.(model := offered), sessions)
    else
      var ttl, id := x.sessionTtl.value, x.hashing.sessionId(req.messages);
      var found := Session.Found(ttl, sessions, id, t.read);
      var info := if found.Some? then found.value else Session.WriteInfo(ttl, sessions, id, offered, t.write);
      var after := if found.Some? then sessions
                   else Session.AfterWrite(ttl, sessions, id, offered, t.write, t.created);
      Prepared(req.(model := if UsesFallback(x.fallback, balance) then offered else info.model), after)
  }

  function KeyOf(x: Setup, req: ChatRequest): Cache.Key {
    x.hashing.cacheKey(req.model, req.messages)
  }

  ghost function Recorded(x: Setup, sessions: Session.Sessions, req: ChatRequest): Session.Sessions {
    if x.sessionTtl.None? then sessions
    else Session.AfterRecord(sessions, x.hashing.sessionId(req.messages), x.hashing.content(req.messages))
  }

  predicate SetupOk(x: Setup) {
    x.caching.Some? ==> x.caching.value.capacity >= 1
  }

  function CacheHit(x: Setup, slots: Slots, req: ChatRequest, now: nat): Option<ChatResponse> {
    if x.caching.None? then None else Cache.Hit(x.caching.value, slots, KeyOf(x, req), now)
  }

  function SlotsAfterGet(x: Setup, slots: Slots, req: ChatRequest, now: nat): Slots {
    if x.caching.None? then slots else Cache.AfterGet(x.caching.value, slots, KeyOf(x, req), now)
  }

  function SlotsAfterPut(x: Setup, slots: Slots, req: ChatRequest, response: ChatResponse, t: Times): Slots
    requires SetupOk(x)
  {
    if x.caching.None? then slots
    else Cache.AfterPut(x.caching.value, slots, KeyOf(x, req), response, t.put, t.stamp)
  }

  ghost function Answer(x: Setup, w: World, req: ChatRequest): Outcome<ChatResponse> {
    Converse(x.settings, DetectorOf(x.unicode), x.env, w, req)
  }

  ghost function ChatSpec(x: Setup, balance: u64, st: Snapshot, req: ChatRequest, t: Times)
    : (Snapshot, Result<ChatResponse, ClientError>)
    requires SetupOk(x)
  {
    var p := Prepare(x, balance, st.sessions, req.(stream := false), t);
    var hit := CacheHit(x, st.slots, p.request, t.get);
    var slots := SlotsAfterGet(x, st.slots, p.request, t.get);
    if hit.Some? then (Snapshot(st.world, slots, p.sessions), Ok(hit.value))
    else
      var o := Answer(x, st.world, p.request);
      if o.result.Err? then (Snapshot(o.world, slots, p.sessions), o.result)
      else (Snapshot(o.world, SlotsAfterPut(x, slots, p.request, o.result.value, t),
                     Recorded(x, p.sessions, p.request)), o.result)
  }

  ghost function StreamSpec(x: Setup, balance: u64, st: Snapshot, req: ChatRequest, t: Times)
    : (Snapshot, Result<(), ClientError>)
  {
    var p := Prepare(x, balance, st.sessions, req, t);
    var o := OpenStream(x.settings.gate, x.env, st.world, p.request);
    (Snapshot(o.world, st.slots, Recorded(x, p.sessions, p.request)), o.result)
  }

  class SolvelaClient {
    const settings: Settings
    const fallback: Option<string>
    const hashing: Hashing
    const unicode: Unicode
    const env: Environment
    const cache: Cache.ResponseCache?<ChatResponse>
    const store: Session.SessionStore?
    var balance: u64
    var world: World

    ghost function Repr(): set<object> {
      {this} + (if cache == null then {} else {cache.inner}) + (if store == null then {} else {store})
    }

    ghost predicate Valid()
      reads this, Repr()
    {
      unicode.isSpace(' ') && (cache != null ==> cache.Valid())
    }

    ghost function Setting(): Setup {
      Setup(settings, fallback, hashing, unicode, env,
            if cache == null then None else Some(cache.Settings()),
            if store == null then None else Some(store.ttl))
    }

    ghost function State(): Snapshot
      reads this, Repr()
    {
      Snapshot(world, if cache == null then [] else cache.inner.slots, if store == null then map[] else store.sessions)
    }

    constructor (settings: Settings, fallback: Option<string>, hashing: Hashing, unicode: Unicode, env: Environment,
                 cache: Cache.ResponseCache?<ChatResponse>, store: Session.SessionStore?)
      requires unicode.isSpace(' ') && (cache != null ==> cache.Valid())
      ensures Valid() && balance == NOT_POLLED && world == World([], 0, [])
      ensures Setting() == Setup(settings, fallback, hashing, unicode, env,
                                 if cache == null then None else Some(cache.Settings()),
                                 if store == null then None else Some(store.ttl))
    {
      this.settings, this.fallback, this.hashing, this.unicode, this.env := settings, fallback, hashing, unicode, env;
      this.cache, this.store := cache, store;
      balance := NOT_POLLED;
      world := World([], 0, []);
    }

    method Post(send: Send) returns (reply: Reply)
      modifies this`world
      ensures world == Posted(old(world), send) && reply == env.gateway(world.sent)
    {
      world := world.(sent := world.sent + [send]);
      reply := env.gateway(world.sent);
    }

    method SignPayment(required: PaymentRequired) returns (r: Result<Payment, ClientError>)
      modifies this`world
      ensures Outcome(world, r) == Sign(settings.gate, env, old(world), required)
    {
      var accept := PickScheme(settings.gate, required.accepts);
      if accept.None? {
        return Err(NoCompatibleScheme);
      }
      var a := accept.value;
      if settings.gate.expectedRecipient.Some? {
        if a.payTo != settings.gate.expectedRecipient.value {
          return Err(RecipientMismatch(settings.gate.expectedRecipient.value, a.payTo));
        }
      }
      var amount := ParseU64(a.amount);
      if amount.None? {
        return Err(ClientError.ParseError);
      }
      if settings.gate.maxPayment.Some? {
        if amount.value > settings.gate.maxPayment.value {
          return Err(AmountExceedsMax(amount.value, settings.gate.maxPayment.value));
        }
      }
      var signed := env.signer(world.signAttempts);
      world := world.(signAttempts := world.signAttempts + 1);
      if !signed {
        return Err(Signing);
      }
      var payment := Payment(required, a, a.payTo, amount.value);
      world := world.(ledger := world.ledger + [payment]);
      return Ok(payment);
    }

    method PayAndResendWithAmount(req: ChatRequest, required: PaymentRequired) returns (r: Result<Bought, ClientError>)
      modifies this`world
      ensures Outcome(world, r) == PayAndResend(settings.gate, env, old(world), req, required)
    {
      var signed := SignPayment(required);
      if signed.Err? {
        return Err(signed.error);
      }
      var reply := Post(Send(req, false, Some(signed.value)));
      if reply.Unreachable? || reply.body.None? {
        return Err(Network);
      }
      var body := reply.body.value;
      if reply.status == OK {
        if body.chat.None? {
          return Err(ClientError.ParseError);
        }
        return Ok(Bought(body.chat.value, Some(signed.value.amount)));
      } else if reply.status == PAYMENT_REQUIRED {
        return Err(PaymentRejected(body.text));
      } else {
        return Err(Gateway(reply.status, body.text));
      }
    }

    method SendChatRequest(req: ChatRequest) returns (r: Result<Bought, ClientError>)
      modifies this`world
      ensures Outcome(world, r) == Attempt(settings.gate, env, old(world), req, false)
    {
      var reply := Post(Send(req, false, None));
      if reply.Unreachable? {
        return Err(Network);
      }
      if reply.status == OK {
        if reply.body.None? {
          return Err(Network);
        }
        if reply.body.value.chat.None? {
          return Err(ClientError.ParseError);
        }
        return Ok(Bought(reply.body.value.chat.value, None));
      } else if reply.status == PAYMENT_REQUIRED {
        if reply.body.None? {
          return Err(Network);
        }
        if reply.body.value.required.None? {
          return Err(ClientError.ParseError);
        }
        r := PayAndResendWithAmount(req, reply.body.value.required.value);
      } else {
        return Err(Gateway(reply.status, TextOf(reply.body)));
      }
    }

    /** The bounded retry loop. At its head the rest of the run is the specification's run from the state in hand. */
    method RetryIfDegraded(req: ChatRequest, initial: ChatResponse, initialPaid: u64)
      returns (r: Result<ChatResponse, ClientError>)
      requires unicode.isSpace(' ')
      modifies this`world
      ensures Outcome(world, r)
              == Retry(settings, DetectorOf(unicode), env, old(world), req, initial, initialPaid, settings.maxRetries)
    {
      var response := initial;
      var total: u64 := initialPaid;
      ghost var bad := DetectorOf(unicode);
      for attempt := 0 to settings.maxRetries
        invariant Retry(settings, bad, env, old(world), req, initial, initialPaid, settings.maxRetries)
                  == Retry(settings, bad, env, world, req, response, total, settings.maxRetries - attempt)
      {
        var reason := IsDegraded(unicode, response);
        if reason.None? {
          return Ok(response);
        }
        var reply := Post(Send(req, true, None));
        if reply.Unreachable? {
          return Err(Network);
        }
        if reply.status == OK {
          if reply.body.None? {
            return Err(Network);
          }
          if reply.body.value.chat.None? {
            return Err(ClientError.ParseError);
          }
          response := reply.body.value.chat.value;
        } else if reply.status == PAYMENT_REQUIRED {
          if reply.body.None? {
            return Err(Network);
          }
          if reply.body.value.required.None? {
            return Err(ClientError.ParseError);
          }
          var bought := PayAndResendWithAmount(req, reply.body.value.required.value);
          if bought.Err? {
            return Err(bought.error);
          }
          total := SaturatingAdd(total, AmountOf(bought.value));
          if settings.gate.maxPayment.Some? {
            if total > settings.gate.maxPayment.value {
              return Err(BudgetExceeded(total, settings.gate.maxPayment.value));
            }
          }
          response := bought.value.response;
        } else {
          return Err(Gateway(reply.status, TextOf(reply.body)));
        }
      }
      return Ok(response);
    }

    /** Steps 1 and 2 of both entry points. */
    method BalanceAndSession(req: ChatRequest, t: Times) returns (effective: ChatRequest)
      requires Valid() && t.Ordered()
      modifies Repr()
      ensures Valid() && balance == old(balance)
      ensures var p := Prepare(Setting(), balance, old(State()).sessions, req, t);
              effective == p.request && State() == old(State()).(sessions := p.sessions)
    {
      effective := req;
      var usedFallback := false;
      if fallback.Some? {
        if balance == NOT_POLLED {
          usedFallback := false;
        } else if balance == 0 {
          effective := effective.(model := fallback.value);
          usedFallback := true;
        }
      }
      if store != null {
        var id := hashing.sessionId(effective.messages);
        var info := store.GetOrCreate(id, effective.model, t.read, t.write, t.created);
        if !usedFallback {
          effective := effective.(model := info.model);
        }
      }
    }

    method Chat(req: ChatRequest, t: Times) returns (r: Result<ChatResponse, ClientError>)
      requires Valid() && t.Ordered()
      modifies Repr()
      ensures Valid() && balance == old(balance)
      ensures (State(), r) == ChatSpec(Setting(), balance, old(State()), req, t)
    {
      var effective := BalanceAndSession(req.(stream := false), t);
      if cache != null {
        var key := hashing.cacheKey(effective.model, effective.messages);
        var cached := cache.Get(key, t.get);
        if cached.Some? {
          return Ok(cached.value);
        }
      }
      var first := SendChatRequest(effective);
      if first.Err? {
        return Err(first.error);
      }
      r := Ok(first.value.response);
      if settings.qualityCheck {
        r := RetryIfDegraded(effective, first.value.response, AmountOf(first.value));
        if r.Err? {
          return;
        }
      }
      if cache != null {
        cache.Put(hashing.cacheKey(effective.model, effective.messages), r.value, t.put, t.stamp);
      }
      if store != null {
        store.RecordRequest(hashing.sessionId(effective.messages), hashing.content(effective.messages));
      }
    }

    method ChatStream(req: ChatRequest, t: Times) returns (r: Result<(), ClientError>)
      requires Valid() && t.Ordered()
      modifies Repr()
      ensures Valid() && balance == old(balance)
      ensures (State(), r) == StreamSpec(Setting(), balance, old(State()), req, t)
    {
      var effective := BalanceAndSession(req, t);
      if store != null {
        store.RecordRequest(hashing.sessionId(effective.messages), hashing.content(effective.messages));
      }
      var probe := Post(Send(effective.(stream := false), false, None));
      effective := effective.(stream := true);
      if probe.Unreachable? {
        return Err(Network);
      }
      var payment := None;
      if probe.status == OK {
      } else if probe.status == PAYMENT_REQUIRED {
        if probe.body.None? {
          return Err(Network);
        }
        if probe.body.value.required.None? {
          return Err(ClientError.ParseError);
        }
        var signed := SignPayment(probe.body.value.required.value);
        if signed.Err? {
          return Err(signed.error);
        }
        payment := Some(signed.value);
      } else {
        return Err(Gateway(probe.status, TextOf(probe.body)));
      }
      var reply := Post(Send(effective, false, payment));
      if reply.Unreachable? {
        return Err(Network);
      }
      if !(200 <= reply.status < 300) {
        return Err(Gateway(reply.status, TextOf(reply.body)));
      }
      return Ok(());
    }
  }
}
