/**
 The paid exchange with the gateway: the 402 handshake, and the retry loop for degraded responses with its saturating
 running total. The gateway is any function of everything sent to it so far, and the signer's RPC any sequence of
 successes and failures; the world records what was sent and every transaction signed.
 */
module Exchange {
  import opened Prelude
  import opened Quality
  import opened Payment

  datatype Message = Message(role: string, content: string)

  datatype ChatRequest = ChatRequest(model: string, messages: seq<Message>, stream: bool)

  /** A body's text and what it parses to, as a chat response and as a 402 body. */
  datatype Body = Body(text: string, chat: Option<ChatResponse>, required: Option<PaymentRequired>)

  /** `body` is `None` if the connection fails while the body is read. */
  datatype Reply = Unreachable | Reply(status: nat, body: Option<Body>)

  const OK: nat := 200
  const PAYMENT_REQUIRED: nat := 402

  /** A request sent: the retry-reason header is present on retry probes, the payment header on paid requests. */
  datatype Send = Send(request: ChatRequest, retryReason: bool, payment: Option<Payment>)

  datatype World = World(sent: seq<Send>, signAttempts: nat, ledger: seq<Payment>)

  datatype Environment = Environment(gateway: seq<Send> -> Reply, signer: nat -> bool)

  datatype Outcome<+T> = Outcome(world: World, result: Result<T, ClientError>)

  /** A response and the amount of the transaction that bought it, if one was needed. */
  datatype Bought = Bought(response: ChatResponse, paid: Option<u64>)

  datatype Settings = Settings(gate: Gate, qualityCheck: bool, maxRetries: nat)

  /** Which responses are degraded. The client's detector is `DetectorOf`. */
  type Detector = ChatResponse -> bool

  ghost function DetectorOf(u: Unicode): Detector {
    (response: ChatResponse) => Verdict(u, response).Some?
  }

  function Posted(w: World, send: Send): World {
    w.(sent := w.sent + [send])
  }

  function Sign(gate: Gate, env: Environment, w: World, required: PaymentRequired): Outcome<Payment> {
    match Validate(gate, required)
    case Err(e) => Outcome(w, Err(e))
    case Ok(p) =>
      var w' := w.(signAttempts := w.signAttempts + 1);
      if env.signer(w.signAttempts) then Outcome(w'.(ledger := w.ledger + [p]), Ok(p)) else Outcome(w', Err(Signing))
  }

  function TextOf(body: Option<Body>): string {
    if body.Some? then body.value.text else ""
  }

  /** The reply to a paid request. The body is read before the status is looked at. */
  function PaidReply(reply: Reply): Result<ChatResponse, ClientError> {
    if reply.Unreachable? || reply.body.None? then Err(Network)
    else if reply.status == OK then
      (if reply.body.value.chat.Some? then Ok(reply.body.value.chat.value) else Err(ParseError))
    else if reply.status == PAYMENT_REQUIRED then Err(PaymentRejected(reply.body.value.text))
    else Err(Gateway(reply.status, reply.body.value.text))
  }

  function PayAndResend(gate: Gate, env: Environment, w: World, req: ChatRequest, required: PaymentRequired): Outcome<Bought> {
    var signed := Sign(gate, env, w, required);
    match signed.result
    case Err(e) => Outcome(signed.world, Err(e))
    case Ok(p) =>
      var w' := Posted(signed.world, Send(req, false, Some(p)));
      match PaidReply(env.gateway(w'.sent))
      case Err(e) => Outcome(w', Err(e))
      case Ok(response) => Outcome(w', Ok(Bought(response, Some(p.amount))))
  }

  /** One probe, paid for if the gateway asks; `retry` says whether it is sent by the retry loop. */
  function Attempt(gate: Gate, env: Environment, w: World, req: ChatRequest, retry: bool): Outcome<Bought> {
    var w' := Posted(w, Send(req, retry, None));
    var reply := env.gateway(w'.sent);
    if reply.Unreachable? then Outcome(w', Err(Network))
    else if reply.status == OK then
      if reply.body.None? then Outcome(w', Err(Network))
      else if reply.body.value.chat.None? then Outcome(w', Err(ParseError))
      else Outcome(w', Ok(Bought(reply.body.value.chat.value, None)))
    else if reply.status == PAYMENT_REQUIRED then
      if reply.body.None? then Outcome(w', Err(Network))
      else if reply.body.value.required.None? then Outcome(w', Err(ParseError))
      else PayAndResend(gate, env, w', req, reply.body.value.required.value)
    else Outcome(w', Err(Gateway(reply.status, TextOf(reply.body))))
  }

  function AmountOf(b: Bought): u64 {
    if b.paid.Some? then b.paid.value else 0
  }

  predicate OverBudget(gate: Gate, total: u64) {
    gate.maxPayment.Some? && total > gate.maxPayment.value
  }

  /** The retry loop from its head: `total` paid so far and `left` iterations to go. The budget comes after paying. */
  ghost function Retry(s: Settings, bad: Detector, env: Environment, w: World, req: ChatRequest,
                       response: ChatResponse, total: u64, left: nat): Outcome<ChatResponse>
    decreases left
  {
    if left == 0 || !bad(response) then Outcome(w, Ok(response))
    else
      var a := Attempt(s.gate, env, w, req, true);
      match a.result
      case Err(e) => Outcome(a.world, Err(e))
      case Ok(b) =>
        var total' := SaturatingAdd(total, AmountOf(b));
        if b.paid.Some? && OverBudget(s.gate, total') then
          Outcome(a.world, Err(BudgetExceeded(total', s.gate.maxPayment.value)))
        else Retry(s, bad, env, a.world, req, b.response, total', left - 1)
  }

  /** Steps 4 and 5 of a chat: the first attempt and, if the quality check is on, the retries. */
  ghost function Converse(s: Settings, bad: Detector, env: Environment, w: World, req: ChatRequest): Outcome<ChatResponse> {
    var a := Attempt(s.gate, env, w, req, false);
    match a.result
    case Err(e) => Outcome(a.world, Err(e))
    case Ok(b) =>
      if s.qualityCheck then Retry(s, bad, env, a.world, req, b.response, AmountOf(b), s.maxRetries)
      else Outcome(a.world, Ok(b.response))
  }

  /** The handshake of a stream: a probe without streaming, then the streaming request, paid for if asked. */
  function OpenStream(gate: Gate, env: Environment, w: World, req: ChatRequest): Outcome<()> {
    var w1 := Posted(w, Send(req.(stream := false), false, None));
    var reply := env.gateway(w1.sent);
    var streaming := req.(stream := true);
    if reply.Unreachable? then Outcome(w1, Err(Network))
    else if reply.status == OK then StreamReply(env, Posted(w1, Send(streaming, false, None)))
    else if reply.status == PAYMENT_REQUIRED then
      if reply.body.None? then Outcome(w1, Err(Network))
      else if reply.body.value.required.None? then Outcome(w1, Err(ParseError))
      else
        var signed := Sign(gate, env, w1, reply.body.value.required.value);
        match signed.result
        case Err(e) => Outcome(signed.world, Err(e))
        case Ok(p) => StreamReply(env, Posted(signed.world, Send(streaming, false, Some(p))))
    else Outcome(w1, Err(Gateway(reply.status, TextOf(reply.body))))
  }

  /** The reply to the last request sent: any success status opens the stream. */
  function StreamReply(env: Environment, w: World): Outcome<()> {
    var reply := env.gateway(w.sent);
    if reply.Unreachable? then Outcome(w, Err(Network))
    else if 200 <= reply.status < 300 then Outcome(w, Ok(()))
    else Outcome(w, Err(Gateway(reply.status, TextOf(reply.body))))
  }

  // ---------------------------------------------------------------- what is sent and signed

  ghost predicate Extends(w: World, w': World) {
    w.sent <= w'.sent && w.ledger <= w'.ledger
  }

  /** The transactions signed since `w`. */
  ghost function Signed(w: World, w': World): seq<Payment>
    requires Extends(w, w')
  {
    w'.ledger[|w.ledger|..]
  }

  /** The requests sent since `w`. */
  ghost function SentSince(w: World, w': World): seq<Send>
    requires Extends(w, w')
  {
    w'.sent[|w.sent|..]
  }

  ghost function Sum(ledger: seq<Payment>): nat {
    if ledger == [] then 0 else Sum(ledger[..|ledger| - 1]) + ledger[|ledger| - 1].amount
  }

  lemma {:induction false} SumAppend(a: seq<Payment>, b: seq<Payment>)
    ensures Sum(a + b) == Sum(a) + Sum(b)
  {
    if b == [] {
      assert a + b == a;
    } else {
      SumAppend(a, b[..|b| - 1]);
      assert (a + b)[..|a + b| - 1] == a + b[..|b| - 1];
    }
  }

  /** The body of the gateway's reply to the last of these requests, if that is a readable 402. */
  function Asked(env: Environment, sent: seq<Send>): Option<PaymentRequired> {
    match env.gateway(sent)
    case Reply(status, Some(body)) => if status == 402 then body.required else None
    case _ => None
  }

  /** The transactions the requests carry, in order. */
  ghost function Carried(sent: seq<Send>): seq<Payment> {
    if sent == [] then []
    else
      var last := sent[|sent| - 1].payment;
      Carried(sent[..|sent| - 1]) + (if last.Some? then [last.value] else [])
  }

  /**
   Request `i` carries a gated transaction for the 402 just received in reply to request `i - 1`, which was sent at
   `from` or later, was not paid for, and differs at most in the stream flag.
   */
  ghost predicate PaysForProbe(gate: Gate, env: Environment, sent: seq<Send>, from: nat, i: nat) {
    && from < i < |sent| && sent[i].payment.Some?
    && sent[i - 1].payment.None? && sent[i - 1].request == sent[i].request.(stream := sent[i - 1].request.stream)
    && Gated(gate, sent[i].payment.value)
    && Asked(env, sent[..i]) == Some(sent[i].payment.value.required)
  }

  /** From `w` to `w'` exactly the transactions sent were signed, each for the 402 just received. */
  ghost predicate PaidAsAsked(gate: Gate, env: Environment, w: World, w': World) {
    && Extends(w, w') && Signed(w, w') == Carried(SentSince(w, w'))
    && forall i: nat :: |w.sent| <= i < |w'.sent| && w'.sent[i].payment.Some? ==> PaysForProbe(gate, env, w'.sent, |w.sent|, i)
  }

  lemma {:induction false} CarriedAppend(a: seq<Send>, b: seq<Send>)
    ensures Carried(a + b) == Carried(a) + Carried(b)
  {
    if b == [] {
      assert a + b == a;
    } else {
      CarriedAppend(a, b[..|b| - 1]);
      assert (a + b)[..|a + b| - 1] == a + b[..|b| - 1];
    }
  }

  lemma {:induction false} PaidAsAskedChain(gate: Gate, env: Environment, a: World, b: World, c: World)
    requires PaidAsAsked(gate, env, a, b) && PaidAsAsked(gate, env, b, c)
    ensures PaidAsAsked(gate, env, a, c)
  {
    ExtendsChain(a, b, c);
    CarriedAppend(SentSince(a, b), SentSince(b, c));
    forall i: nat | |a.sent| <= i < |c.sent| && c.sent[i].payment.Some?
      ensures PaysForProbe(gate, env, c.sent, |a.sent|, i)
    {
      if i < |b.sent| {
        assert PaysForProbe(gate, env, b.sent, |a.sent|, i);
        assert b.sent[..i] == c.sent[..i];
      } else {
        assert PaysForProbe(gate, env, c.sent, |b.sent|, i);
      }
    }
  }

  /** Every transaction signed that way is gated. */
  lemma {:induction false} PaidIsGated(gate: Gate, env: Environment, w: World, w': World)
    requires PaidAsAsked(gate, env, w, w')
    ensures forall p :: p in Signed(w, w') ==> Gated(gate, p)
  {
    var sent := SentSince(w, w');
    forall p | p in Carried(sent) ensures Gated(gate, p) {
      var i := CarriedBy(sent, p);
      assert PaysForProbe(gate, env, w'.sent, |w.sent|, |w.sent| + i);
    }
  }

  lemma {:induction false} CarriedBy(sent: seq<Send>, p: Payment) returns (i: nat)
    requires p in Carried(sent)
    ensures i < |sent| && sent[i].payment == Some(p)
  {
    i := |sent| - 1;
    if sent[i].payment != Some(p) {
      i := CarriedBy(sent[..i], p);
    }
  }

  lemma CarriedTwo(a: Send, b: Send)
    requires a.payment.None?
    ensures Carried([a]) == []
    ensures Carried([a, b]) == if b.payment.Some? then [b.payment.value] else []
  {
    assert [a][..0] == [] && [a, b][..1] == [a];
  }

  lemma CarriedOf(sent: seq<Send>)
    requires 1 <= |sent| <= 2 && sent[0].payment.None?
    ensures Carried(sent) == if |sent| == 2 && sent[1].payment.Some? then [sent[1].payment.value] else []
  {
    CarriedTwo(sent[0], sent[|sent| - 1]);
    assert sent == if |sent| == 2 then [sent[0], sent[1]] else [sent[0]];
  }

  /** A probe and perhaps a paid request for it. */
  lemma {:induction false} OneTurnPaid(gate: Gate, env: Environment, w: World, w': World)
    requires Extends(w, w')
    requires var sent, signed := SentSince(w, w'), Signed(w, w');
             && 1 <= |sent| <= 2 && sent[0].payment.None?
             && signed == (if |sent| == 2 && sent[1].payment.Some? then [sent[1].payment.value] else [])
             && (signed != [] ==> Gated(gate, signed[0]) && Asked(env, w.sent + [sent[0]]) == Some(signed[0].required)
                                  && sent[0].request == sent[1].request.(stream := sent[0].request.stream))
    ensures PaidAsAsked(gate, env, w, w')
  {
    var sent, n := SentSince(w, w'), |w.sent|;
    CarriedOf(sent);
    forall i: nat | n <= i < |w'.sent| && w'.sent[i].payment.Some? ensures PaysForProbe(gate, env, w'.sent, n, i) {
      assert w'.sent[n] == sent[0];
      assert i == n + 1 && w'.sent[i] == sent[1];
      assert w'.sent[..i] == w.sent + [sent[0]];
    }
  }

  lemma ExtendsChain(a: World, b: World, c: World)
    requires Extends(a, b) && Extends(b, c)
    ensures Extends(a, c) && Signed(a, c) == Signed(a, b) + Signed(b, c)
    ensures SentSince(a, c) == SentSince(a, b) + SentSince(b, c)
    ensures Sum(Signed(a, c)) == Sum(Signed(a, b)) + Sum(Signed(b, c))
  {
    SumAppend(Signed(a, b), Signed(b, c));
  }

  // ---------------------------------------------------------------- one attempt

  /** The chat response in the gateway's last reply, if that is a readable 200. */
  function LastAnswer(env: Environment, w: World): Option<ChatResponse> {
    match env.gateway(w.sent)
    case Reply(status, Some(body)) => if status == 200 then body.chat else None
    case _ => None
  }

  /** The last request sent carries no payment. */
  ghost predicate EndsUnpaid(w: World) {
    w.sent != [] && w.sent[|w.sent| - 1].payment.None?
  }

  ghost predicate EndsPaid(w: World) {
    w.sent != [] && w.sent[|w.sent| - 1].payment.Some?
  }

  /** A payment for the 402 last received would pass the gate. */
  ghost predicate CouldPay(gate: Gate, env: Environment, sent: seq<Send>) {
    Asked(env, sent).Some? && exists p: Payment :: p.required == Asked(env, sent).value && Gated(gate, p)
  }

  /**
   What the last reply, to a paid or an unpaid request, means if it is not a chat response: a broken connection, a body
   that does not parse, a status of the gateway's, a rejected payment, a 402 the gate refuses, or a failure to sign.
   */
  ghost predicate FailsWith(gate: Gate, env: Environment, w: World, e: ClientError) {
    var last := env.gateway(w.sent);
    match e
    case Network =>
      last.Unreachable? || (last.body.None? && (EndsPaid(w) || last.status == 200 || last.status == 402))
    case Gateway(status, message) =>
      && last.Reply? && last.status == status && status != 200 && status != 402
      && (if last.body.Some? then message == last.body.value.text else !EndsPaid(w) && message == "")
    case PaymentRejected(message) =>
      EndsPaid(w) && last.Reply? && last.status == 402 && last.body.Some? && message == last.body.value.text
    case Signing =>
      EndsUnpaid(w) && CouldPay(gate, env, w.sent) && w.signAttempts > 0 && !env.signer(w.signAttempts - 1)
    case ParseError =>
      || (last.Reply? && last.status == 200 && last.body.Some? && last.body.value.chat.None?)
      || (EndsUnpaid(w) && last.Reply? && last.status == 402 && last.body.Some? && last.body.value.required.None?)
      || (EndsUnpaid(w) && Asked(env, w.sent).Some? && Refused(gate, Asked(env, w.sent).value, ParseError))
    case _ => EndsUnpaid(w) && Asked(env, w.sent).Some? && Refused(gate, Asked(env, w.sent).value, e)
  }

  /** The result is the chat response last received, if there is one, and else the error that the last reply means. */
  ghost predicate Reports(gate: Gate, env: Environment, w: World, result: Result<ChatResponse, ClientError>) {
    && w.sent != []
    && (forall e: ClientError :: !e.BudgetExceeded? ==> (result == Err(e) <==> FailsWith(gate, env, w, e)))
    && (LastAnswer(env, w).Some? <==> result.Ok? || result.error.BudgetExceeded?)
    && (result.Ok? ==> LastAnswer(env, w) == Some(result.value))
  }

  function ResponseOf(r: Result<Bought, ClientError>): Result<ChatResponse, ClientError> {
    match r
    case Ok(b) => Ok(b.response)
    case Err(e) => Err(e)
  }

  lemma PaidReports(gate: Gate, env: Environment, w: World, e: ClientError)
    requires EndsPaid(w)
    ensures PaidReply(env.gateway(w.sent)) == Err(e) && !e.BudgetExceeded? <==> FailsWith(gate, env, w, e)
  {
  }

  /** A readable 402 that does not lead to a signature. */
  lemma UnsignedReports(gate: Gate, env: Environment, w: World, signed: Outcome<Payment>, e: ClientError)
    requires EndsUnpaid(w) && Asked(env, w.sent).Some?
    requires signed == Sign(gate, env, w, Asked(env, w.sent).value) && signed.result.Err?
    ensures signed.result == Err(e) && !e.BudgetExceeded? <==> FailsWith(gate, env, signed.world, e)
  {
    var required := Asked(env, w.sent).value;
    ValidateRefuses(gate, required, e);
    match Validate(gate, required)
    case Ok(p) =>
      ValidateExact(gate, required, p);
      ValidateRefuses(gate, required, ParseError);
    case Err(e') =>
      ValidateRefuses(gate, required, e');
      forall p: Payment | p.required == required ensures !Gated(gate, p) {
        ValidateExact(gate, required, p);
      }
  }

  /** An attempt returns the chat response in the last reply, or the error that reply means. */
  lemma AttemptReports(gate: Gate, env: Environment, w: World, req: ChatRequest, retry: bool)
    ensures var o := Attempt(gate, env, w, req, retry);
            Reports(gate, env, o.world, ResponseOf(o.result)) && !(o.result.Err? && o.result.error.BudgetExceeded?)
  {
    var o := Attempt(gate, env, w, req, retry);
    var w1 := Posted(w, Send(req, retry, None));
    forall e: ClientError ensures !e.BudgetExceeded? ==> (o.result == Err(e) <==> FailsWith(gate, env, o.world, e)) {
      if Asked(env, w1.sent).Some? {
        var signed := Sign(gate, env, w1, Asked(env, w1.sent).value);
        if signed.result.Ok? {
          PaidReports(gate, env, o.world, e);
        } else {
          UnsignedReports(gate, env, w1, signed, e);
        }
      }
    }
  }

  /**
   The handshake: one unpaid probe, and if it is answered with a well-formed 402 whose gate passes, one signature and
   one request carrying that transaction, which is for the first compatible offer of that 402. A transaction stays in
   the ledger even if the paid request then fails.
   */
  lemma AttemptFacts(gate: Gate, env: Environment, w: World, req: ChatRequest, retry: bool)
    ensures var o := Attempt(gate, env, w, req, retry);
            && Extends(w, o.world)
            && (var sent, signed := SentSince(w, o.world), Signed(w, o.world);
                && sent != [] && sent[0] == Send(req, retry, None)
                && (signed == [] ==> sent == [Send(req, retry, None)])
                && (signed != [] ==> |signed| == 1 && Gated(gate, signed[0]) && Sum(signed) == signed[0].amount
                                     && Asked(env, w.sent + [Send(req, retry, None)]) == Some(signed[0].required)
                                     && sent == [Send(req, retry, None), Send(req, false, Some(signed[0]))])
                && (o.result.Ok? ==> if o.result.value.paid.Some?
                                     then signed != [] && o.result.value.paid.value == signed[0].amount
                                     else signed == []))
            && (o.result.Err? ==> !o.result.error.BudgetExceeded?)
            && o.world.signAttempts == w.signAttempts + (if o.result == Err(Signing) then 1 else |Signed(w, o.world)|)
  {
    var w1 := Posted(w, Send(req, retry, None));
    var reply := env.gateway(w1.sent);
    if reply.Reply? && reply.status == PAYMENT_REQUIRED && reply.body.Some? && reply.body.value.required.Some? {
      var required := reply.body.value.required.value;
      var signed := Sign(gate, env, w1, required);
      if signed.result.Ok? {
        var p := signed.result.value;
        ValidateExact(gate, required, p);
        assert Sum([p]) == p.amount by {
          assert [p][..0] == [];
        }
      }
    }
  }

  /** A stream signs at most once and sends at most twice, the probe never streaming. */
  lemma StreamFacts(gate: Gate, env: Environment, w: World, req: ChatRequest)
    ensures var o := OpenStream(gate, env, w, req);
            && Extends(w, o.world)
            && (var sent, signed := SentSince(w, o.world), Signed(w, o.world);
                && 1 <= |sent| <= 2 && sent[0] == Send(req.(stream := false), false, None)
                && |signed| <= 1
                && (signed != [] ==> Gated(gate, signed[0]) && Sum(signed) == signed[0].amount
                                     && Asked(env, w.sent + [sent[0]]) == Some(signed[0].required))
                && (|sent| == 2 ==> sent[1] == Send(req.(stream := true), false,
                                                    if signed == [] then None else Some(signed[0])))
                && (o.result.Ok? || signed != [] ==> |sent| == 2))
  {
    var w1 := Posted(w, Send(req.(stream := false), false, None));
    var reply := env.gateway(w1.sent);
    if reply.Reply? && reply.status == PAYMENT_REQUIRED && reply.body.Some? && reply.body.value.required.Some? {
      var required := reply.body.value.required.value;
      var signed := Sign(gate, env, w1, required);
      if signed.result.Ok? {
        var p := signed.result.value;
        ValidateExact(gate, required, p);
        assert Sum([p]) == p.amount by {
          assert [p][..0] == [];
        }
      }
    }
  }

  lemma AttemptPaysAsAsked(gate: Gate, env: Environment, w: World, req: ChatRequest, retry: bool)
    ensures PaidAsAsked(gate, env, w, Attempt(gate, env, w, req, retry).world)
  {
    AttemptFacts(gate, env, w, req, retry);
    OneTurnPaid(gate, env, w, Attempt(gate, env, w, req, retry).world);
  }

  lemma StreamPaysAsAsked(gate: Gate, env: Environment, w: World, req: ChatRequest)
    ensures PaidAsAsked(gate, env, w, OpenStream(gate, env, w, req).world)
  {
    StreamFacts(gate, env, w, req);
    OneTurnPaid(gate, env, w, OpenStream(gate, env, w, req).world);
  }

  lemma StreamCounts(gate: Gate, env: Environment, w: World, req: ChatRequest)
    ensures var w' := OpenStream(gate, env, w, req).world;
            && PaidAsAsked(gate, env, w, w') && |Signed(w, w')| <= 1 && |SentSince(w, w')| <= 2
            && (gate.maxPayment.Some? ==> Sum(Signed(w, w')) <= gate.maxPayment.value)
            && forall p :: p in Signed(w, w') ==> Gated(gate, p)
  {
    StreamFacts(gate, env, w, req);
    StreamPaysAsAsked(gate, env, w, req);
    assert Sum([]) == 0;
  }

  /** An attempt signs exactly if its probe is answered with a readable 402 that passes the gate and the signer succeeds. */
  lemma AttemptSignsIff(gate: Gate, env: Environment, w: World, req: ChatRequest, retry: bool)
    ensures Attempt(gate, env, w, req, retry).world.ledger != w.ledger
            <==> env.signer(w.signAttempts) && CouldPay(gate, env, w.sent + [Send(req, retry, None)])
  {
    var w1 := Posted(w, Send(req, retry, None));
    var o := Attempt(gate, env, w, req, retry);
    AttemptFacts(gate, env, w, req, retry);
    if Asked(env, w1.sent).Some? {
      CouldPayIff(gate, env, w1.sent);
      var signed := Sign(gate, env, w1, Asked(env, w1.sent).value);
      assert signed.result.Ok? ==> |o.world.ledger| == |w.ledger| + 1;
    }
  }

  // ---------------------------------------------------------------- opening a stream

  /** Why a stream does not open: the probe's reply if nothing more was sent, else the reply to the streaming request. */
  ghost predicate StreamFailsWith(gate: Gate, env: Environment, w: World, w': World, e: ClientError)
    requires Extends(w, w')
  {
    var last := env.gateway(w'.sent);
    if |SentSince(w, w')| == 1 then
      FailsWith(gate, env, w', e) && !(last.Reply? && last.status == 200)
    else
      match e
      case Network => last.Unreachable?
      case Gateway(status, message) =>
        && last.Reply? && last.status == status && !(200 <= status < 300)
        && message == (if last.body.Some? then last.body.value.text else "")
      case _ => false
  }

  /** A stream opens iff its second request was sent and answered with a success status, whatever the body. */
  lemma StreamOpensIff(gate: Gate, env: Environment, w: World, req: ChatRequest)
    ensures var o := OpenStream(gate, env, w, req);
            var last := env.gateway(o.world.sent);
            && Extends(w, o.world)
            && (o.result.Ok? <==> |SentSince(w, o.world)| == 2 && last.Reply? && 200 <= last.status < 300)
            && (forall e :: o.result == Err(e) <==> !o.result.Ok? && StreamFailsWith(gate, env, w, o.world, e))
  {
    var o := OpenStream(gate, env, w, req);
    StreamFacts(gate, env, w, req);
    forall e ensures o.result == Err(e) <==> !o.result.Ok? && StreamFailsWith(gate, env, w, o.world, e) {
      StreamReports(gate, env, w, req, e);
    }
  }

  lemma StreamReports(gate: Gate, env: Environment, w: World, req: ChatRequest, e: ClientError)
    ensures var o := OpenStream(gate, env, w, req);
            && Extends(w, o.world)
            && (o.result == Err(e) <==> o.result.Err? && StreamFailsWith(gate, env, w, o.world, e))
  {
    var w1 := Posted(w, Send(req.(stream := false), false, None));
    StreamFacts(gate, env, w, req);
    if Asked(env, w1.sent).Some? {
      var signed := Sign(gate, env, w1, Asked(env, w1.sent).value);
      if signed.result.Err? {
        UnsignedReports(gate, env, w1, signed, e);
      }
    }
  }

  /**
   The streaming request is sent iff the probe is answered with a 200, or with a readable 402 that some gated payment
   answers and the signer succeeds; it is paid for iff the probe's answer was that 402.
   */
  lemma StreamSendsIff(gate: Gate, env: Environment, w: World, req: ChatRequest)
    ensures var w' := OpenStream(gate, env, w, req).world;
            var probed := w.sent + [Send(req.(stream := false), false, None)];
            var probe := env.gateway(probed);
            var pays := env.signer(w.signAttempts) && CouldPay(gate, env, probed);
            && Extends(w, w')
            && (|SentSince(w, w')| == 2 <==> (probe.Reply? && probe.status == 200) || pays)
            && (EndsPaid(w') <==> pays)
  {
    var w' := OpenStream(gate, env, w, req).world;
    var w1 := Posted(w, Send(req.(stream := false), false, None));
    StreamFacts(gate, env, w, req);
    if Asked(env, w1.sent).Some? {
      CouldPayIff(gate, env, w1.sent);
    }
  }

  lemma CouldPayIff(gate: Gate, env: Environment, sent: seq<Send>)
    requires Asked(env, sent).Some?
    ensures CouldPay(gate, env, sent) <==> Validate(gate, Asked(env, sent).value).Ok?
  {
    match Validate(gate, Asked(env, sent).value)
    case Ok(p) => ValidateExact(gate, Asked(env, sent).value, p);
    case Err(_) =>
      forall p: Payment | p.required == Asked(env, sent).value ensures !Gated(gate, p) {
        ValidateExact(gate, Asked(env, sent).value, p);
      }
  }
}
