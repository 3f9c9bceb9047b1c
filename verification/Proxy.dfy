/**
 The proxy: forwards any request, and on a 402 signs once and sends once more. Header names are ASCII. The gateway is any
 function of everything the proxy has sent.
 */
module Proxy {
  import opened Prelude
  import opened Payment
  import opened Exchange
  import opened Client

  /** A caller's header; `text` is absent if the value is not visible ASCII. */
  datatype Header = Header(name: string, text: Option<string>)

  /** A header sent: copied from the caller, or the proxy's own PAYMENT-SIGNATURE with the transaction it signed. */
  datatype OutHeader = Copied(name: string, text: string) | PaymentSignature(payment: Payment)

  datatype ProxySend = ProxySend(verb: string, url: string, headers: seq<OutHeader>, body: Option<string>)

  datatype ReplyHeader = ReplyHeader(name: string, value: string)

  datatype GatewayReply = TimedOut | Failed | Replied(status: nat, headers: seq<ReplyHeader>, body: Option<Body>)

  /** What the caller gets: the gateway's reply with at most one value per header name, or an error of the proxy's own. */
  datatype ProxyResponse =
    | Passthrough(status: nat, headers: map<string, string>, body: Option<Body>)
    | ProxyError(status: nat, kind: string)

  function LowerChar(c: char): char {
    if 'A' <= c <= 'Z' then (c as int + 32) as char else c
  }

  function Lower(s: string): string {
    seq(|s|, i requires 0 <= i < |s| => LowerChar(s[i]))
  }

  const STRIPPED: seq<string> := ["host", "connection", "transfer-encoding", "payment-signature"]

  predicate Forwards(h: Header) {
    Lower(h.name) !in STRIPPED && h.text.Some?
  }

  function Forwarded(headers: seq<Header>): seq<OutHeader> {
    if headers == [] then []
    else
      var n := |headers| - 1;
      Forwarded(headers[..n]) + (if Forwards(headers[n]) then [Copied(headers[n].name, headers[n].text.value)] else [])
  }

  /** A caller's request for a gateway address. */
  datatype ProxyRequest = ProxyRequest(verb: string, url: string, headers: seq<Header>, body: string)

  /** `send` is the caller's request with the headers that may leave, and with the proxy's payment if there is one. */
  ghost predicate ForwardOf(c: ProxyRequest, payment: Option<Payment>, send: ProxySend) {
    && send.verb == c.verb && send.url == c.url
    && send.headers == Forwarded(c.headers) + (if payment.Some? then [PaymentSignature(payment.value)] else [])
    && send.body == if c.verb in {"POST", "PUT", "PATCH"} then Some(c.body) else None
  }

  predicate HopByHop(name: string) {
    Lower(name) == "connection" || Lower(name) == "transfer-encoding"
  }

  /** Header by header, each one replacing any earlier one of the same name. */
  function Inserted(headers: seq<ReplyHeader>): map<string, string> {
    if headers == [] then map[]
    else
      var n := |headers| - 1;
      if HopByHop(headers[n].name) then Inserted(headers[..n])
      else Inserted(headers[..n])[Lower(headers[n].name) := headers[n].value]
  }

  /** The caller gets the gateway's status and body, and its headers as they were inserted. */
  ghost predicate PassesOn(reply: GatewayReply, response: ProxyResponse) {
    reply.Replied? && response == Passthrough(reply.status, Inserted(reply.headers), reply.body)
  }

  function SigningErrorResponse(e: ClientError): ProxyResponse {
    match e
    case NoCompatibleScheme => ProxyError(502, "no_compatible_scheme")
    case RecipientMismatch(_, _) => ProxyError(502, "recipient_mismatch")
    case AmountExceedsMax(_, _) => ProxyError(502, "amount_exceeds_max")
    case Signing => ProxyError(502, "signing_error")
    case _ => ProxyError(502, "proxy_error")
  }

  /** What the caller is told when a 402 is not paid for: the clause of the gate that fails, or that signing failed. */
  ghost predicate TellsWhy(gate: Gate, required: PaymentRequired, response: ProxyResponse) {
    && response.ProxyError? && response.status == 502
    && (Refused(gate, required, NoCompatibleScheme) ==> response.kind == "no_compatible_scheme")
    && (forall expected, actual :: Refused(gate, required, RecipientMismatch(expected, actual)) ==>
          response.kind == "recipient_mismatch")
    && (Refused(gate, required, ClientError.ParseError) ==> response.kind == "proxy_error")
    && (forall amount: u64, max: u64 :: Refused(gate, required, AmountExceedsMax(amount, max)) ==>
          response.kind == "amount_exceeds_max")
    && ((exists p: Payment :: p.required == required && Gated(gate, p)) ==> response.kind == "signing_error")
  }

  /** What the caller gets for a paid request. */
  ghost predicate AnswersPaid(reply: GatewayReply, response: ProxyResponse) {
    if reply.Replied? && reply.status != 402 then PassesOn(reply, response)
    else response == ProxyError(502, if reply.Replied? then "payment_rejected" else "gateway_unreachable")
  }

  /**
   How a request goes on after a 402 with this body: one attempt to sign, and if it succeeds one more request, which
   carries the gated payment for that 402.
   */
  ghost predicate PaidTurn(client: SolvelaClient, gateway: seq<ProxySend> -> GatewayReply, c: ProxyRequest,
                           required: Option<PaymentRequired>, sent0: seq<ProxySend>, world0: World,
                           sent1: seq<ProxySend>, world1: World, response: ProxyResponse) {
    match required
    case None => sent1 == sent0 && world1 == world0 && response == ProxyError(502, "invalid_402_body")
    case Some(body) =>
      var signed := Sign(client.settings.gate, client.env, world0, body);
      && world1 == signed.world
      && match signed.result
         case Err(_) => sent1 == sent0 && world1.ledger == world0.ledger && TellsWhy(client.settings.gate, body, response)
         case Ok(p) =>
           && |sent1| == |sent0| + 1 && sent1[..|sent0|] == sent0 && ForwardOf(c, Some(p), sent1[|sent0|])
           && world1.ledger == world0.ledger + [p] && Gated(client.settings.gate, p) && p.required == body
           && AnswersPaid(gateway(sent1), response)
  }

  function Demand(reply: GatewayReply): Option<PaymentRequired>
    requires reply.Replied?
  {
    if reply.body.Some? then reply.body.value.required else None
  }

  /** One proxied request: sent once without payment; a 402 has its turn, and anything else is the end of it. */
  ghost predicate Handled(client: SolvelaClient, gateway: seq<ProxySend> -> GatewayReply, c: ProxyRequest,
                          sent0: seq<ProxySend>, world0: World, sent1: seq<ProxySend>, world1: World,
                          response: ProxyResponse) {
    && |sent1| > |sent0| && sent1[..|sent0|] == sent0 && ForwardOf(c, None, sent1[|sent0|])
    && (var first := sent1[..|sent0| + 1];
        var reply := gateway(first);
        if reply.Replied? && reply.status == 402 then
          PaidTurn(client, gateway, c, Demand(reply), first, world0, sent1, world1, response)
        else
          && sent1 == first && world1 == world0
          && match reply
             case TimedOut => response == ProxyError(504, "gateway_timeout")
             case Failed => response == ProxyError(502, "gateway_unreachable")
             case Replied(_, _, _) => PassesOn(reply, response))
  }

  lemma HandledPaid(client: SolvelaClient, gateway: seq<ProxySend> -> GatewayReply, c: ProxyRequest,
                    sent0: seq<ProxySend>, world0: World, send: ProxySend,
                    sent1: seq<ProxySend>, world1: World, response: ProxyResponse)
    requires ForwardOf(c, None, send)
    requires var reply := gateway(sent0 + [send]);
             && reply.Replied? && reply.status == 402
             && PaidTurn(client, gateway, c, Demand(reply), sent0 + [send], world0, sent1, world1, response)
    ensures Handled(client, gateway, c, sent0, world0, sent1, world1, response)
    ensures |sent1| <= |sent0| + 2
  {
    var first := sent0 + [send];
    assert first <= sent1;
    assert sent1[..|sent0| + 1] == first && sent1[..|sent0|] == sent0;
  }

  lemma HandledOnce(client: SolvelaClient, gateway: seq<ProxySend> -> GatewayReply, c: ProxyRequest,
                    sent0: seq<ProxySend>, world: World, send: ProxySend, response: ProxyResponse)
    requires ForwardOf(c, None, send)
    requires match gateway(sent0 + [send])
             case TimedOut => response == ProxyError(504, "gateway_timeout")
             case Failed => response == ProxyError(502, "gateway_unreachable")
             case Replied(status, _, _) => status != 402 && PassesOn(gateway(sent0 + [send]), response)
    ensures Handled(client, gateway, c, sent0, world, sent0 + [send], world, response)
  {
    var first := sent0 + [send];
    assert first[..|sent0| + 1] == first && first[..|sent0|] == sent0;
  }

  class ProxyState {
    const client: SolvelaClient
    const gatewayUrl: string
    const gateway: seq<ProxySend> -> GatewayReply
    var sent: seq<ProxySend>

    constructor (client: SolvelaClient, gatewayUrl: string, gateway: seq<ProxySend> -> GatewayReply)
      ensures this.client == client && this.gatewayUrl == gatewayUrl && this.gateway == gateway && sent == []
    {
      this.client, this.gatewayUrl, this.gateway := client, gatewayUrl, gateway;
      sent := [];
    }

    method SendToGateway(send: ProxySend) returns (reply: GatewayReply)
      modifies this`sent
      ensures sent == old(sent) + [send] && reply == gateway(sent)
    {
      sent := sent + [send];
      reply := gateway(sent);
    }

    /** Copies the caller's headers in order, without the hop-by-hop and payment ones. */
    method ForwardHeaders(headers: seq<Header>) returns (out: seq<OutHeader>)
      ensures out == Forwarded(headers)
    {
      out := [];
      for i := 0 to |headers|
        invariant out == Forwarded(headers[..i])
      {
        assert headers[..i + 1][..i] == headers[..i];
        var name := Lower(headers[i].name);
        if name == "host" || name == "connection" || name == "transfer-encoding" || name == "payment-signature" {
          continue;
        }
        if headers[i].text.Some? {
          out := out + [Copied(headers[i].name, headers[i].text.value)];
        }
      }
      assert headers[..|headers|] == headers;
    }

    /** Copies the reply's headers, the last value of a name winning, and leaves status and body alone. */
    method BuildPassthroughResponse(reply: GatewayReply) returns (response: ProxyResponse)
      requires reply.Replied?
      ensures PassesOn(reply, response)
    {
      var headers: map<string, string> := map[];
      for i := 0 to |reply.headers|
        invariant headers == Inserted(reply.headers[..i])
      {
        assert reply.headers[..i + 1][..i] == reply.headers[..i];
        var name := Lower(reply.headers[i].name);
        if name == "connection" || name == "transfer-encoding" {
          continue;
        }
        headers := headers[name := reply.headers[i].value];
      }
      assert reply.headers[..|reply.headers|] == reply.headers;
      return Passthrough(reply.status, headers, reply.body);
    }

    /**
     One proxied request: one send without payment, and after a 402 whose body parses and whose signing succeeds exactly
     one more with that payment; everything signed passed the gate and is for the 402 just received.
     */
    method ProxyHandler(verb: string, pathAndQuery: Option<string>, headers: seq<Header>, body: string)
      returns (response: ProxyResponse)
      modifies this`sent, client`world
      ensures |old(sent)| + 1 <= |sent| <= |old(sent)| + 2
      ensures Handled(client, gateway,
                      ProxyRequest(verb, gatewayUrl + (if pathAndQuery.Some? then pathAndQuery.value else "/"), headers, body),
                      old(sent), old(client.world), sent, client.world, response)
    {
      var url := gatewayUrl + (if pathAndQuery.Some? then pathAndQuery.value else "/");
      var out := ForwardHeaders(headers);
      var send := ProxySend(verb, url, out, None);
      if verb == "POST" || verb == "PUT" || verb == "PATCH" {
        send := send.(body := Some(body));
      }
      ghost var c, sent0, world0 := ProxyRequest(verb, url, headers, body), sent, client.world;
      assert ForwardOf(c, None, send);
      var reply := SendToGateway(send);
      match reply
      case TimedOut =>
        HandledOnce(client, gateway, c, sent0, world0, send, ProxyError(504, "gateway_timeout"));
        return ProxyError(504, "gateway_timeout");
      case Failed =>
        HandledOnce(client, gateway, c, sent0, world0, send, ProxyError(502, "gateway_unreachable"));
        return ProxyError(502, "gateway_unreachable");
      case Replied(status, _, _) =>
        if status == PAYMENT_REQUIRED {
          response := Handle402(url, verb, headers, body, reply);
          HandledPaid(client, gateway, c, sent0, world0, send, sent, client.world, response);
        } else {
          response := BuildPassthroughResponse(reply);
          HandledOnce(client, gateway, c, sent0, world0, send, response);
        }
    }

    method Handle402(url: string, verb: string, headers: seq<Header>, body: string, reply402: GatewayReply)
      returns (response: ProxyResponse)
      requires reply402.Replied? && reply402.status == PAYMENT_REQUIRED
      modifies this`sent, client`world
      ensures PaidTurn(client, gateway, ProxyRequest(verb, url, headers, body), Demand(reply402), old(sent), old(client.world),
                       sent, client.world, response)
    {
      if reply402.body.None? {
        return ProxyError(502, "invalid_402_body");
      }
      if reply402.body.value.required.None? {
        return ProxyError(502, "invalid_402_body");
      }
      SignedOnceAndGated(client, client.world, reply402.body.value.required.value);
      SigningErrorTells(client, client.world, reply402.body.value.required.value);
      var signed := client.SignPayment(reply402.body.value.required.value);
      if signed.Err? {
        return SigningErrorResponse(signed.error);
      }
      var out := ForwardHeaders(headers);
      out := out + [PaymentSignature(signed.value)];
      var send := ProxySend(verb, url, out, None);
      if verb == "POST" || verb == "PUT" || verb == "PATCH" {
        send := send.(body := Some(body));
      }
      assert ForwardOf(ProxyRequest(verb, url, headers, body), Some(signed.value), send);
      var reply := SendToGateway(send);
      match reply
      case Replied(status, _, _) =>
        if status == PAYMENT_REQUIRED {
          return ProxyError(502, "payment_rejected");
        } else {
          response := BuildPassthroughResponse(reply);
        }
      case _ => return ProxyError(502, "gateway_unreachable");
    }
  }

  // ---------------------------------------------------------------- what leaves the proxy

  function NameOf(h: OutHeader): string {
    match h
    case Copied(name, _) => name
    case PaymentSignature(_) => "PAYMENT-SIGNATURE"
  }

  /** The headers of a request that any receiver would read as a payment signature. */
  function SignatureHeaders(headers: seq<OutHeader>): seq<OutHeader> {
    if headers == [] then []
    else
      var n := |headers| - 1;
      SignatureHeaders(headers[..n]) + (if Lower(NameOf(headers[n])) == "payment-signature" then [headers[n]] else [])
  }

  lemma {:induction false} SignatureAppend(a: seq<OutHeader>, h: OutHeader)
    ensures SignatureHeaders(a + [h])
            == SignatureHeaders(a) + (if Lower(NameOf(h)) == "payment-signature" then [h] else [])
  {
    assert (a + [h])[..|a|] == a;
  }

  lemma ForwardedIsNoSignature(h: Header)
    requires Forwards(h)
    ensures Lower(h.name) != "payment-signature"
  {
    assert STRIPPED[3] == "payment-signature";
  }

  lemma {:induction false} CallerSignaturesStripped(headers: seq<Header>)
    ensures SignatureHeaders(Forwarded(headers)) == []
  {
    if headers != [] {
      var h := headers[|headers| - 1];
      var before := Forwarded(headers[..|headers| - 1]);
      CallerSignaturesStripped(headers[..|headers| - 1]);
      if Forwards(h) {
        ForwardedIsNoSignature(h);
        SignatureAppend(before, Copied(h.name, h.text.value));
      } else {
        assert Forwarded(headers) == before;
      }
    }
  }

  lemma OwnNameLowers()
    ensures Lower("PAYMENT-SIGNATURE") == "payment-signature"
  {
  }

  /**
   For every header list: no payment signature of the caller's ever leaves; the unpaid request carries none, and the paid
   one exactly one, the proxy's own, on an otherwise identical request.
   */
  lemma {:induction false} OnlyOwnSignatureLeaves(c: ProxyRequest, p: Payment, unpaid: ProxySend, paid: ProxySend)
    requires ForwardOf(c, None, unpaid) && ForwardOf(c, Some(p), paid)
    ensures SignatureHeaders(unpaid.headers) == [] && SignatureHeaders(paid.headers) == [PaymentSignature(p)]
    ensures paid == unpaid.(headers := unpaid.headers + [PaymentSignature(p)])
  {
    CallerSignaturesStripped(c.headers);
    SignatureAppend(Forwarded(c.headers), PaymentSignature(p));
    OwnNameLowers();
    assert Forwarded(c.headers) + [] == Forwarded(c.headers);
  }

  /** The values given under one name, in order. */
  function ValuesIn(headers: seq<Header>, name: string): seq<string> {
    if headers == [] then []
    else
      var n := |headers| - 1;
      ValuesIn(headers[..n], name)
      + (if headers[n].name == name && headers[n].text.Some? then [headers[n].text.value] else [])
  }

  function ValuesOut(headers: seq<OutHeader>, name: string): seq<string> {
    if headers == [] then []
    else
      var n := |headers| - 1;
      ValuesOut(headers[..n], name)
      + (if headers[n].Copied? && headers[n].name == name then [headers[n].text] else [])
  }

  /** Forwarding keeps, name by name, all readable values in order, and drops the stripped names entirely. */
  lemma {:induction false} ForwardedPerName(headers: seq<Header>, name: string)
    ensures ValuesOut(Forwarded(headers), name)
            == if Lower(name) in ["host", "connection", "transfer-encoding", "payment-signature"] then []
               else ValuesIn(headers, name)
  {
    if headers != [] {
      var n := |headers| - 1;
      ForwardedPerName(headers[..n], name);
      var before := Forwarded(headers[..n]);
      if Forwards(headers[n]) {
        var h := Copied(headers[n].name, headers[n].text.value);
        assert (before + [h])[..|before|] == before;
      } else {
        assert Forwarded(headers) == before;
      }
    }
  }

  /** One proxied request makes at most two sends and one signature, gated like every other. */
  lemma SignedOnceAndGated(client: SolvelaClient, world: World, required: PaymentRequired)
    ensures var o := Sign(client.settings.gate, client.env, world, required);
            && o.world.sent == world.sent
            && match o.result
               case Ok(p) => o.world.ledger == world.ledger + [p] && Gated(client.settings.gate, p) && p.required == required
               case Err(_) => o.world.ledger == world.ledger
  {
    match Validate(client.settings.gate, required)
    case Ok(p) => ValidateExact(client.settings.gate, required, p);
    case Err(_) =>
  }

  lemma SigningErrorTells(client: SolvelaClient, world: World, required: PaymentRequired)
    ensures var gate, r := client.settings.gate, Sign(client.settings.gate, client.env, world, required).result;
            r.Err? ==> TellsWhy(gate, required, SigningErrorResponse(r.error))
  {
    var gate := client.settings.gate;
    ValidateRefuses(gate, required, NoCompatibleScheme);
    ValidateRefuses(gate, required, ClientError.ParseError);
    forall expected, actual
      ensures Validate(gate, required) == Err(RecipientMismatch(expected, actual))
              <==> Refused(gate, required, RecipientMismatch(expected, actual))
    {
      ValidateRefuses(gate, required, RecipientMismatch(expected, actual));
    }
    forall amount: u64, max: u64
      ensures Validate(gate, required) == Err(AmountExceedsMax(amount, max))
              <==> Refused(gate, required, AmountExceedsMax(amount, max))
    {
      ValidateRefuses(gate, required, AmountExceedsMax(amount, max));
    }
    forall p: Payment ensures Validate(gate, required) == Ok(p) <==> p.required == required && Gated(gate, p) {
      ValidateExact(gate, required, p);
    }
  }

  // ---------------------------------------------------------------- what comes back

  /** All values the reply gives under a name, in order. */
  function ValuesOf(headers: seq<ReplyHeader>, name: string): seq<string> {
    if headers == [] then []
    else
      var n := |headers| - 1;
      ValuesOf(headers[..n], name) + (if Lower(headers[n].name) == name then [headers[n].value] else [])
  }

  /** Name by name the caller gets the last value, and none of the two hop-by-hop names. */
  lemma {:induction false} LastValueIsKept(headers: seq<ReplyHeader>, name: string)
    ensures var values := ValuesOf(headers, name);
            && (name in Inserted(headers) <==> values != [] && name != "connection" && name != "transfer-encoding")
            && (name in Inserted(headers) ==> Inserted(headers)[name] == values[|values| - 1])
  {
    if headers != [] {
      LastValueIsKept(headers[..|headers| - 1], name);
    }
  }

  /** Two headers of one name, or one that is not passed on. */
  ghost predicate LosesAt(headers: seq<ReplyHeader>, i: nat, j: nat) {
    && i <= j < |headers|
    && if i == j then HopByHop(headers[i].name) else Lower(headers[i].name) == Lower(headers[j].name)
  }

  ghost predicate NamedAt(headers: seq<ReplyHeader>, name: string, i: int) {
    0 <= i < |headers| && Lower(headers[i].name) == name
  }

  ghost predicate Named(headers: seq<ReplyHeader>, name: string) {
    exists i :: NamedAt(headers, name, i)
  }

  ghost predicate NamedTwice(headers: seq<ReplyHeader>, name: string) {
    exists i, j :: i < j && NamedAt(headers, name, i) && NamedAt(headers, name, j)
  }

  lemma NamedStep(headers: seq<ReplyHeader>, h: ReplyHeader, name: string)
    ensures Named(headers + [h], name) <==> Named(headers, name) || Lower(h.name) == name
    ensures NamedTwice(headers + [h], name) <==> NamedTwice(headers, name) || (Named(headers, name) && Lower(h.name) == name)
  {
    var n, all := |headers|, headers + [h];
    assert forall i :: i != n ==> NamedAt(all, name, i) == NamedAt(headers, name, i);
    assert NamedAt(all, name, n) == (Lower(h.name) == name);
  }

  lemma {:induction false} ValuesCount(headers: seq<ReplyHeader>, name: string)
    ensures Named(headers, name) <==> ValuesOf(headers, name) != []
    ensures NamedTwice(headers, name) <==> |ValuesOf(headers, name)| >= 2
  {
    if headers != [] {
      var n := |headers| - 1;
      ValuesCount(headers[..n], name);
      NamedStep(headers[..n], headers[n], name);
      assert headers[..n] + [headers[n]] == headers;
    }
  }

  /** The caller gets exactly the values of the reply under this name. */
  ghost predicate KeepsName(headers: seq<ReplyHeader>, name: string) {
    ValuesOf(headers, name) == if name in Inserted(headers) then [Inserted(headers)[name]] else []
  }

  /** The reply's headers come through unmodified exactly if no name occurs twice and none is hop-by-hop. */
  lemma UnmodifiedIff(headers: seq<ReplyHeader>)
    ensures (forall name :: KeepsName(headers, name)) <==> forall i: nat, j: nat :: !LosesAt(headers, i, j)
  {
    if i: nat, j: nat :| LosesAt(headers, i, j) {
      var name := Lower(headers[i].name);
      assert NamedAt(headers, name, i) && NamedAt(headers, name, j);
      ValuesCount(headers, name);
      LastValueIsKept(headers, name);
      assert !KeepsName(headers, name);
    } else {
      forall name ensures KeepsName(headers, name) {
        ValuesCount(headers, name);
        LastValueIsKept(headers, name);
        if i, j :| i < j && NamedAt(headers, name, i) && NamedAt(headers, name, j) {
          assert LosesAt(headers, i, j);
        }
        if i :| NamedAt(headers, name, i) {
          assert !LosesAt(headers, i, i);
        }
      }
    }
  }

  /** Two cookies are set and only the second arrives. */
  lemma SecondCookieWins()
    ensures var headers := [ReplyHeader("set-cookie", "a"), ReplyHeader("set-cookie", "b")];
            Inserted(headers) == map["set-cookie" := "b"] && !KeepsName(headers, "set-cookie")
  {
    var headers := [ReplyHeader("set-cookie", "a"), ReplyHeader("set-cookie", "b")];
    assert Lower("set-cookie") == "set-cookie";
    assert headers[..1] == [headers[0]] && headers[..1][..0] == [];
    ValuesCount(headers, "set-cookie");
    assert NamedAt(headers, "set-cookie", 0) && NamedAt(headers, "set-cookie", 1);
  }
}
