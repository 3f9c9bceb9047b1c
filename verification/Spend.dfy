/**
 What one chat can spend. The budget test comes after the payment, so the bound on every run is twice the cap, and the
 cap itself only if the chat succeeds. All statements hold for every gateway and every signer.
 */
module Spend {
  import opened Prelude
  import opened Quality
  import opened Payment
  import opened Exchange

  /** The cap, if it is one the saturating comparison can enforce. */
  ghost predicate Capped(s: Settings, cap: nat) {
    s.gate.maxPayment == Some(cap) && cap < U64_MAX
  }

  ghost function Saturated(n: nat): u64 {
    if n <= U64_MAX then n else U64_MAX
  }

  lemma SaturatedAdd(n: nat, a: u64)
    ensures SaturatingAdd(Saturated(n), a) == Saturated(n + a)
  {
  }

  /** The saturating comparison with the cap gives the verdict of the exact one for every cap below the largest integer, and only then. */
  lemma SaturationIsExactIff(gate: Gate)
    requires gate.maxPayment.Some?
    ensures (forall n: nat :: OverBudget(gate, Saturated(n)) <==> n > gate.maxPayment.value)
            <==> gate.maxPayment.value < U64_MAX
  {
    if gate.maxPayment.value == U64_MAX {
      assert !OverBudget(gate, Saturated(U64_MAX + 1));
    }
  }

  /** How a run that had signed for `before` may end; `after` is the exact total including it. */
  ghost predicate WithinBudget<T>(cap: nat, after: nat, result: Result<T, ClientError>) {
    && after <= 2 * cap
    && (result.Ok? ==> after <= cap)
    && (result.Err? && result.error.BudgetExceeded? ==>
          result.error.cap == cap < after && result.error.spent == Saturated(after))
  }

  /** One attempt signs for at most the cap, and for the amount it reports if it succeeds. */
  lemma AttemptSpend(s: Settings, env: Environment, w: World, req: ChatRequest, retry: bool, cap: nat)
    requires s.gate.maxPayment == Some(cap)
    ensures var a := Attempt(s.gate, env, w, req, retry);
            && Extends(w, a.world) && Sum(Signed(w, a.world)) <= cap
            && (a.result.Ok? ==> AmountOf(a.result.value) == Sum(Signed(w, a.world)))
            && (a.result.Err? ==> !a.result.error.BudgetExceeded?)
  {
    AttemptFacts(s.gate, env, w, req, retry);
    assert Sum([]) == 0;
  }

  lemma RetrySpend(s: Settings, bad: Detector, env: Environment, w: World, req: ChatRequest,
                   response: ChatResponse, before: nat, left: nat, cap: nat)
    requires Capped(s, cap) && before <= cap
    ensures var o := Retry(s, bad, env, w, req, response, Saturated(before), left);
            Extends(w, o.world) && WithinBudget(cap, before + Sum(Signed(w, o.world)), o.result)
    decreases left, 1
  {
    if left == 0 || !bad(response) {
      assert Signed(w, w) == [];
    } else {
      AttemptSpend(s, env, w, req, true, cap);
      var a := Attempt(s.gate, env, w, req, true);
      if a.result.Ok? {
        SaturatedAdd(before, AmountOf(a.result.value));
        if before + AmountOf(a.result.value) <= cap {
          RetrySpendMore(s, bad, env, w, req, a, before, left, cap);
        }
      }
    }
  }

  /** The turns after an attempt that kept the total within the cap. */
  lemma RetrySpendMore(s: Settings, bad: Detector, env: Environment, w: World, req: ChatRequest,
                       a: Outcome<Bought>, before: nat, left: nat, cap: nat)
    requires Capped(s, cap) && left > 0
    requires a.result.Ok? && Extends(w, a.world) && Sum(Signed(w, a.world)) == AmountOf(a.result.value)
    requires before + AmountOf(a.result.value) <= cap
    ensures var after := before + AmountOf(a.result.value);
            var o := Retry(s, bad, env, a.world, req, a.result.value.response, Saturated(after), left - 1);
            Extends(w, o.world) && WithinBudget(cap, before + Sum(Signed(w, o.world)), o.result)
    decreases left, 0
  {
    var after := before + AmountOf(a.result.value);
    RetrySpend(s, bad, env, a.world, req, a.result.value.response, after, left - 1, cap);
    var o := Retry(s, bad, env, a.world, req, a.result.value.response, Saturated(after), left - 1);
    SpendChain(w, a.world, o, before, cap);
  }

  lemma SpendChain<T>(w: World, mid: World, o: Outcome<T>, before: nat, cap: nat)
    requires Extends(w, mid) && Extends(mid, o.world)
    requires WithinBudget(cap, before + Sum(Signed(w, mid)) + Sum(Signed(mid, o.world)), o.result)
    ensures Extends(w, o.world) && WithinBudget(cap, before + Sum(Signed(w, o.world)), o.result)
  {
    ExtendsChain(w, mid, o.world);
  }

  /**
   Spend safety: whatever the gateway does, one chat signs for at most twice the cap, for at most the cap if it
   succeeds, and a budget error reports the exact total (cut off at the largest integer), which exceeds the cap.
   */
  lemma SpendSafety(s: Settings, bad: Detector, env: Environment, w: World, req: ChatRequest, cap: nat)
    requires Capped(s, cap)
    ensures var o := Converse(s, bad, env, w, req);
            Extends(w, o.world) && WithinBudget(cap, Sum(Signed(w, o.world)), o.result)
  {
    var a := Attempt(s.gate, env, w, req, false);
    AttemptSpend(s, env, w, req, false, cap);
    if a.result.Ok? && s.qualityCheck {
      var b := a.result.value;
      RetrySpend(s, bad, env, a.world, req, b.response, AmountOf(b), s.maxRetries, cap);
      ExtendsChain(w, a.world, Retry(s, bad, env, a.world, req, b.response, AmountOf(b), s.maxRetries).world);
    }
  }

  // ---------------------------------------------------------------- the loop, head by head

  /** The state at a loop head: the response in hand and the saturating total. */
  datatype Head = Head(world: World, response: ChatResponse, total: u64)

  /** The `n`-th loop head, if the run gets there: `n + 1` attempts succeeded and the first `n` responses were degraded. */
  ghost function HeadAt(s: Settings, bad: Detector, env: Environment, w: World, req: ChatRequest, n: nat): Option<Head> {
    if n == 0 then
      var a := Attempt(s.gate, env, w, req, false);
      if a.result.Ok? then Some(Head(a.world, a.result.value.response, AmountOf(a.result.value))) else None
    else
      match HeadAt(s, bad, env, w, req, n - 1)
      case None => None
      case Some(h) => NextHead(s, bad, env, req, h)
  }

  ghost function NextHead(s: Settings, bad: Detector, env: Environment, req: ChatRequest, h: Head): Option<Head> {
    if !bad(h.response) then None
    else
      var a := Attempt(s.gate, env, h.world, req, true);
      if a.result.Err? then None
      else
        var total := SaturatingAdd(h.total, AmountOf(a.result.value));
        if a.result.value.paid.Some? && OverBudget(s.gate, total) then None
        else Some(Head(a.world, a.result.value.response, total))
  }

  /**
   At every loop head the running total is the exact sum signed in this chat, cut off at the largest integer, and each
   of the `n + 1` attempts made has cost one request, or two requests and one signature.
   */
  lemma {:induction false} HeadFacts(s: Settings, bad: Detector, env: Environment, w: World, req: ChatRequest, n: nat)
    requires HeadAt(s, bad, env, w, req, n).Some?
    ensures var h := HeadAt(s, bad, env, w, req, n).value;
            && Extends(w, h.world) && h.total == Saturated(Sum(Signed(w, h.world)))
            && |Signed(w, h.world)| <= n + 1
            && n + 1 <= |SentSince(w, h.world)| == n + 1 + |Signed(w, h.world)|
  {
    assert Sum([]) == 0;
    if n == 0 {
      AttemptFacts(s.gate, env, w, req, false);
    } else {
      HeadFacts(s, bad, env, w, req, n - 1);
      var h := HeadAt(s, bad, env, w, req, n - 1).value;
      AttemptFacts(s.gate, env, h.world, req, true);
      var a := Attempt(s.gate, env, h.world, req, true);
      ExtendsChain(w, h.world, a.world);
      SaturatedAdd(Sum(Signed(w, h.world)), AmountOf(a.result.value));
    }
  }

  /** Where the loop stops: the response is good, or the retries are used up. */
  ghost predicate StopsAt(s: Settings, bad: Detector, env: Environment, w: World, req: ChatRequest, n: nat) {
    && n <= s.maxRetries && HeadAt(s, bad, env, w, req, n).Some?
    && (!bad(HeadAt(s, bad, env, w, req, n).value.response) || n == s.maxRetries)
  }

  lemma {:induction false} NoLaterHead(s: Settings, bad: Detector, env: Environment, w: World, req: ChatRequest, i: nat, n: nat)
    requires i <= n && HeadAt(s, bad, env, w, req, i).None?
    ensures HeadAt(s, bad, env, w, req, n).None?
    decreases n
  {
    if i < n {
      NoLaterHead(s, bad, env, w, req, i, n - 1);
    }
  }

  /** One turn of the loop, in terms of heads. */
  lemma RetryTurn(s: Settings, bad: Detector, env: Environment, req: ChatRequest, h: Head, left: nat)
    requires left > 0 && bad(h.response)
    ensures var o := Retry(s, bad, env, h.world, req, h.response, h.total, left);
            match NextHead(s, bad, env, req, h)
            case None => o.result.Err?
            case Some(h') => o == Retry(s, bad, env, h'.world, req, h'.response, h'.total, left - 1)
  {
  }

  ghost predicate ReturnsHead(o: Outcome<ChatResponse>, h: Head) {
    o == Outcome(h.world, Ok(h.response))
  }

  /** At a head where the loop stops, and at one after which the run fails, there is no later stop. */
  lemma NoLaterStop(s: Settings, bad: Detector, env: Environment, w: World, req: ChatRequest, i: nat, n: nat)
    requires i < n && (i >= s.maxRetries || HeadAt(s, bad, env, w, req, i + 1).None?)
    ensures !StopsAt(s, bad, env, w, req, n)
  {
    if n <= s.maxRetries {
      NoLaterHead(s, bad, env, w, req, i + 1, n);
    }
  }

  lemma HeadStep(s: Settings, bad: Detector, env: Environment, w: World, req: ChatRequest, i: nat)
    requires HeadAt(s, bad, env, w, req, i).Some?
    ensures HeadAt(s, bad, env, w, req, i + 1) == NextHead(s, bad, env, req, HeadAt(s, bad, env, w, req, i).value)
    ensures !bad(HeadAt(s, bad, env, w, req, i).value.response) ==> HeadAt(s, bad, env, w, req, i + 1).None?
  {
  }

  /** The run `o` of the loop from head `i` ends as the first stop from there on says. */
  ghost predicate EndsAtStop(s: Settings, bad: Detector, env: Environment, w: World, req: ChatRequest, i: nat,
                             o: Outcome<ChatResponse>) {
    && (forall n: nat :: i <= n && StopsAt(s, bad, env, w, req, n) ==> ReturnsHead(o, HeadAt(s, bad, env, w, req, n).value))
    && (o.result.Ok? ==> exists n: nat :: i <= n && StopsAt(s, bad, env, w, req, n))
  }

  lemma StopHere(s: Settings, bad: Detector, env: Environment, w: World, req: ChatRequest, i: nat, o: Outcome<ChatResponse>)
    requires StopsAt(s, bad, env, w, req, i) && ReturnsHead(o, HeadAt(s, bad, env, w, req, i).value)
    ensures EndsAtStop(s, bad, env, w, req, i, o)
  {
    HeadStep(s, bad, env, w, req, i);
    forall n: nat | i < n ensures !StopsAt(s, bad, env, w, req, n) {
      NoLaterStop(s, bad, env, w, req, i, n);
    }
  }

  lemma FailHere(s: Settings, bad: Detector, env: Environment, w: World, req: ChatRequest, i: nat, o: Outcome<ChatResponse>)
    requires !StopsAt(s, bad, env, w, req, i) && HeadAt(s, bad, env, w, req, i + 1).None? && o.result.Err?
    ensures EndsAtStop(s, bad, env, w, req, i, o)
  {
    forall n: nat | i < n ensures !StopsAt(s, bad, env, w, req, n) {
      NoLaterStop(s, bad, env, w, req, i, n);
    }
  }

  lemma StopLater(s: Settings, bad: Detector, env: Environment, w: World, req: ChatRequest, i: nat, o: Outcome<ChatResponse>)
    requires !StopsAt(s, bad, env, w, req, i) && EndsAtStop(s, bad, env, w, req, i + 1, o)
    ensures EndsAtStop(s, bad, env, w, req, i, o)
  {
  }

  /** What is left of the run of the loop at head `i`. */
  ghost function RestFrom(s: Settings, bad: Detector, env: Environment, w: World, req: ChatRequest, i: nat): Outcome<ChatResponse>
    requires i <= s.maxRetries && HeadAt(s, bad, env, w, req, i).Some?
  {
    var h := HeadAt(s, bad, env, w, req, i).value;
    Retry(s, bad, env, h.world, req, h.response, h.total, s.maxRetries - i)
  }

  /** The rest of the run ends at this head, fails, or is the rest from the next head. */
  lemma RestTurn(s: Settings, bad: Detector, env: Environment, w: World, req: ChatRequest, i: nat)
    requires i <= s.maxRetries && HeadAt(s, bad, env, w, req, i).Some?
    ensures var o := RestFrom(s, bad, env, w, req, i);
            if StopsAt(s, bad, env, w, req, i) then ReturnsHead(o, HeadAt(s, bad, env, w, req, i).value)
            else if HeadAt(s, bad, env, w, req, i + 1).None? then o.result.Err?
            else i < s.maxRetries && o == RestFrom(s, bad, env, w, req, i + 1)
  {
    var h := HeadAt(s, bad, env, w, req, i).value;
    if !StopsAt(s, bad, env, w, req, i) {
      HeadStep(s, bad, env, w, req, i);
      RetryTurn(s, bad, env, req, h, s.maxRetries - i);
    }
  }

  lemma {:induction false} RetryFromHead(s: Settings, bad: Detector, env: Environment, w: World, req: ChatRequest, i: nat)
    requires i <= s.maxRetries && HeadAt(s, bad, env, w, req, i).Some?
    ensures EndsAtStop(s, bad, env, w, req, i, RestFrom(s, bad, env, w, req, i))
    decreases s.maxRetries - i
  {
    var o := RestFrom(s, bad, env, w, req, i);
    RestTurn(s, bad, env, w, req, i);
    if StopsAt(s, bad, env, w, req, i) {
      StopHere(s, bad, env, w, req, i, o);
    } else if HeadAt(s, bad, env, w, req, i + 1).None? {
      FailHere(s, bad, env, w, req, i, o);
    } else {
      RetryFromHead(s, bad, env, w, req, i + 1);
      StopLater(s, bad, env, w, req, i, o);
    }
  }

  /**
   Retry outcome: with the quality check on, a chat succeeds iff its loop stops somewhere, and it returns the response
   in hand there: the first good one, or the last one allowed with all before it degraded.
   */
  lemma RetryOutcome(s: Settings, bad: Detector, env: Environment, w: World, req: ChatRequest, n: nat)
    requires s.qualityCheck
    ensures var o := Converse(s, bad, env, w, req);
            && (StopsAt(s, bad, env, w, req, n) ==>
                  ReturnsHead(o, HeadAt(s, bad, env, w, req, n).value))
            && (o.result.Ok? <==> exists m: nat :: StopsAt(s, bad, env, w, req, m))
  {
    if HeadAt(s, bad, env, w, req, 0).Some? {
      RetryFromHead(s, bad, env, w, req, 0);
    } else {
      forall m: nat ensures !StopsAt(s, bad, env, w, req, m) {
        NoLaterHead(s, bad, env, w, req, 0, m);
      }
    }
  }

  lemma {:induction false} HeadsAreDegraded(s: Settings, bad: Detector, env: Environment, w: World, req: ChatRequest, i: nat, n: nat)
    requires i < n && HeadAt(s, bad, env, w, req, n).Some?
    ensures HeadAt(s, bad, env, w, req, i).Some? && bad(HeadAt(s, bad, env, w, req, i).value.response)
    decreases n
  {
    if i < n - 1 {
      HeadsAreDegraded(s, bad, env, w, req, i, n - 1);
    }
  }

  /** What is signed from `w` to `w'` is what is sent, as asked, in at most so many attempts. */
  ghost predicate Costs(s: Settings, env: Environment, w: World, w': World, attempts: nat) {
    PaidAsAsked(s.gate, env, w, w') && |Signed(w, w')| <= attempts && |SentSince(w, w')| <= 2 * attempts
  }

  lemma AttemptCosts(s: Settings, env: Environment, w: World, req: ChatRequest, retry: bool)
    ensures Costs(s, env, w, Attempt(s.gate, env, w, req, retry).world, 1)
  {
    AttemptFacts(s.gate, env, w, req, retry);
    AttemptPaysAsAsked(s.gate, env, w, req, retry);
  }

  lemma CostsChain(s: Settings, env: Environment, a: World, b: World, c: World, m: nat, n: nat)
    requires Costs(s, env, a, b, m) && Costs(s, env, b, c, n)
    ensures Costs(s, env, a, c, m + n)
  {
    ExtendsChain(a, b, c);
    PaidAsAskedChain(s.gate, env, a, b, c);
  }

  lemma {:induction false} RetryCosts(s: Settings, bad: Detector, env: Environment, w: World, req: ChatRequest,
                                      response: ChatResponse, total: u64, left: nat)
    ensures Costs(s, env, w, Retry(s, bad, env, w, req, response, total, left).world, left)
    decreases left
  {
    if left > 0 && bad(response) {
      var a := Attempt(s.gate, env, w, req, true);
      AttemptCosts(s, env, w, req, true);
      if a.result.Ok? {
        var b := a.result.value;
        var total' := SaturatingAdd(total, AmountOf(b));
        if !(b.paid.Some? && OverBudget(s.gate, total')) {
          RetryCosts(s, bad, env, a.world, req, b.response, total', left - 1);
          CostsChain(s, env, w, a.world, Retry(s, bad, env, a.world, req, b.response, total', left - 1).world, 1, left - 1);
        }
      }
    }
  }

  /**
   For every gateway: at most one signature and two requests for each allowed attempt, and what is signed is what is
   sent, every transaction gated and for the 402 just received.
   */
  lemma ConverseCounts(s: Settings, bad: Detector, env: Environment, w: World, req: ChatRequest)
    ensures var o := Converse(s, bad, env, w, req);
            var attempts := if s.qualityCheck then s.maxRetries + 1 else 1;
            && PaidAsAsked(s.gate, env, w, o.world)
            && |Signed(w, o.world)| <= attempts && |SentSince(w, o.world)| <= 2 * attempts
            && (forall p :: p in Signed(w, o.world) ==> Gated(s.gate, p))
  {
    var a := Attempt(s.gate, env, w, req, false);
    AttemptCosts(s, env, w, req, false);
    if a.result.Ok? && s.qualityCheck {
      var b := a.result.value;
      RetryCosts(s, bad, env, a.world, req, b.response, AmountOf(b), s.maxRetries);
      CostsChain(s, env, w, a.world, Retry(s, bad, env, a.world, req, b.response, AmountOf(b), s.maxRetries).world, 1, s.maxRetries);
    }
    PaidIsGated(s.gate, env, w, Converse(s, bad, env, w, req).world);
  }

  // ---------------------------------------------------------------- what a chat reports

  lemma {:induction false} RetryReports(s: Settings, bad: Detector, env: Environment, w: World, req: ChatRequest,
                                        response: ChatResponse, total: u64, left: nat)
    requires Reports(s.gate, env, w, Ok(response))
    ensures var o := Retry(s, bad, env, w, req, response, total, left); Reports(s.gate, env, o.world, o.result)
    decreases left
  {
    if left > 0 && bad(response) {
      AttemptReports(s.gate, env, w, req, true);
      var a := Attempt(s.gate, env, w, req, true);
      if a.result.Ok? {
        RetryReports(s, bad, env, a.world, req, a.result.value.response, SaturatingAdd(total, AmountOf(a.result.value)), left - 1);
      }
    }
  }

  /** No budget error is missed and none is made up: the exact total, cut off at the largest integer, decides. */
  ghost predicate BudgetKept(gate: Gate, total: nat, result: Result<ChatResponse, ClientError>) {
    && (result.Ok? ==> !OverBudget(gate, Saturated(total)))
    && (result.Err? && result.error.BudgetExceeded? ==>
          gate.maxPayment == Some(result.error.cap) && result.error.spent == Saturated(total) > result.error.cap)
  }

  /** One successful attempt within the gate adds its amount to the exact total. */
  lemma AttemptTotal(s: Settings, env: Environment, w: World, req: ChatRequest, retry: bool)
    ensures var a := Attempt(s.gate, env, w, req, retry);
            && Extends(w, a.world) && !(a.result.Err? && a.result.error.BudgetExceeded?)
            && (a.result.Ok? ==> AmountOf(a.result.value) == Sum(Signed(w, a.world))
                                 && !OverBudget(s.gate, AmountOf(a.result.value)))
  {
    AttemptFacts(s.gate, env, w, req, retry);
    assert Sum([]) == 0;
  }

  lemma {:induction false} RetryBudget(s: Settings, bad: Detector, env: Environment, w: World, req: ChatRequest,
                                       response: ChatResponse, before: nat, left: nat)
    requires !OverBudget(s.gate, Saturated(before))
    ensures var o := Retry(s, bad, env, w, req, response, Saturated(before), left);
            Extends(w, o.world) && BudgetKept(s.gate, before + Sum(Signed(w, o.world)), o.result)
    decreases left
  {
    if left == 0 || !bad(response) {
      assert Signed(w, w) == [];
    } else {
      AttemptTotal(s, env, w, req, true);
      var a := Attempt(s.gate, env, w, req, true);
      if a.result.Ok? {
        var after := before + AmountOf(a.result.value);
        SaturatedAdd(before, AmountOf(a.result.value));
        if !OverBudget(s.gate, Saturated(after)) {
          RetryBudget(s, bad, env, a.world, req, a.result.value.response, after, left - 1);
          ExtendsChain(w, a.world, Retry(s, bad, env, a.world, req, a.result.value.response, Saturated(after), left - 1).world);
        }
      }
    }
  }

  lemma ConverseBudget(s: Settings, bad: Detector, env: Environment, w: World, req: ChatRequest)
    ensures var o := Converse(s, bad, env, w, req);
            Extends(w, o.world) && BudgetKept(s.gate, Sum(Signed(w, o.world)), o.result)
  {
    AttemptTotal(s, env, w, req, false);
    var a := Attempt(s.gate, env, w, req, false);
    if a.result.Ok? && s.qualityCheck {
      var b := a.result.value;
      RetryBudget(s, bad, env, a.world, req, b.response, AmountOf(b), s.maxRetries);
      ExtendsChain(w, a.world, Retry(s, bad, env, a.world, req, b.response, AmountOf(b), s.maxRetries).world);
    }
  }

  /**
   What a chat reports, for every gateway and signer: an error other than the budget's exactly if the last reply means it;
   BudgetExceeded, with the exact total cut off at the largest integer and the cap, exactly if the last reply is a chat
   response and that total exceeds the cap; and else that chat response.
   */
  lemma ConverseReports(s: Settings, bad: Detector, env: Environment, w: World, req: ChatRequest)
    ensures var o := Converse(s, bad, env, w, req);
            && Extends(w, o.world) && Reports(s.gate, env, o.world, o.result)
            && (var total := Saturated(Sum(Signed(w, o.world)));
                forall spent: u64, cap: u64 ::
                  o.result == Err(BudgetExceeded(spent, cap))
                  <==> LastAnswer(env, o.world).Some? && s.gate.maxPayment == Some(cap) && spent == total > cap)
  {
    AttemptReports(s.gate, env, w, req, false);
    var a := Attempt(s.gate, env, w, req, false);
    if a.result.Ok? && s.qualityCheck {
      RetryReports(s, bad, env, a.world, req, a.result.value.response, AmountOf(a.result.value), s.maxRetries);
    }
    ConverseBudget(s, bad, env, w, req);
  }

  /** A chat that succeeds returns the response in the gateway's last reply. */
  lemma ConverseAnswers(s: Settings, bad: Detector, env: Environment, w: World, req: ChatRequest)
    ensures var o := Converse(s, bad, env, w, req);
            o.result.Ok? ==> LastAnswer(env, o.world) == Some(o.result.value)
  {
    ConverseReports(s, bad, env, w, req);
  }

  // ---------------------------------------------------------------- what a chat sends

  /** Every request sent from `w` to `w'` is `req`; those probes that are not the chat's first give the retry reason. */
  ghost predicate SendsOnly(req: ChatRequest, first: nat, w: World, w': World) {
    && Extends(w, w')
    && forall i :: |w.sent| <= i < |w'.sent| ==>
         w'.sent[i].request == req && (w'.sent[i].retryReason <==> i > first && w'.sent[i].payment.None?)
  }

  lemma AttemptSends(s: Settings, env: Environment, w: World, req: ChatRequest, first: nat, retry: bool)
    requires first <= |w.sent| && (retry <==> first < |w.sent|)
    ensures SendsOnly(req, first, w, Attempt(s.gate, env, w, req, retry).world)
    ensures |w.sent| < |Attempt(s.gate, env, w, req, retry).world.sent|
  {
    AttemptFacts(s.gate, env, w, req, retry);
    var w' := Attempt(s.gate, env, w, req, retry).world;
    forall i | |w.sent| <= i < |w'.sent|
      ensures w'.sent[i].request == req && (w'.sent[i].retryReason <==> i > first && w'.sent[i].payment.None?)
    {
      assert w'.sent[i] == SentSince(w, w')[i - |w.sent|];
    }
  }

  lemma {:induction false} RetrySends(s: Settings, bad: Detector, env: Environment, w: World, req: ChatRequest, first: nat,
                                      response: ChatResponse, total: u64, left: nat)
    requires first < |w.sent|
    ensures SendsOnly(req, first, w, Retry(s, bad, env, w, req, response, total, left).world)
    decreases left
  {
    if left > 0 && bad(response) {
      AttemptSends(s, env, w, req, first, true);
      var a := Attempt(s.gate, env, w, req, true);
      if a.result.Ok? {
        RetrySends(s, bad, env, a.world, req, first, a.result.value.response,
                   SaturatingAdd(total, AmountOf(a.result.value)), left - 1);
      }
    }
  }

  /** A chat sends nothing but its own request; exactly the probes after the first say that they are retries. */
  lemma ConverseSends(s: Settings, bad: Detector, env: Environment, w: World, req: ChatRequest)
    ensures SendsOnly(req, |w.sent|, w, Converse(s, bad, env, w, req).world)
  {
    AttemptSends(s, env, w, req, |w.sent|, false);
    var a := Attempt(s.gate, env, w, req, false);
    if a.result.Ok? && s.qualityCheck {
      RetrySends(s, bad, env, a.world, req, |w.sent|, a.result.value.response, AmountOf(a.result.value), s.maxRetries);
    }
  }

  // ---------------------------------------------------------------- the bounds are exact

  /** An offer of exactly `amount` that passes the gate. */
  ghost function Offer(gate: Gate, amount: u64): PaymentRequired {
    PaymentRequired([Accept("exact", gate.network, gate.mint, Decimal(amount),
                            if gate.expectedRecipient.Some? then gate.expectedRecipient.value else "")])
  }

  const EmptyResponse := ChatResponse("", [])

  ghost function GreedyReply(offer: PaymentRequired, sent: seq<Send>): Reply {
    if sent != [] && sent[|sent| - 1].payment.None? then Reply(PAYMENT_REQUIRED, Some(Body("", None, Some(offer))))
    else Reply(OK, Some(Body("", Some(EmptyResponse), None)))
  }

  /** Asks for `amount` at every probe and answers every payment with an empty response. */
  ghost function Greedy(gate: Gate, amount: u64): Environment {
    Environment((sent: seq<Send>) => GreedyReply(Offer(gate, amount), sent), (n: nat) => true)
  }

  /** Every attempt succeeds with an empty response and costs `amount`. */
  ghost predicate Drains(gate: Gate, env: Environment, amount: u64) {
    forall w: World, req: ChatRequest, retry: bool :: Drained(gate, env, amount, w, Attempt(gate, env, w, req, retry))
  }

  ghost predicate Drained(gate: Gate, env: Environment, amount: u64, w: World, o: Outcome<Bought>) {
    o.result == Ok(Bought(EmptyResponse, Some(amount))) && Extends(w, o.world) && Sum(Signed(w, o.world)) == amount
  }

  lemma GreedyOffer(gate: Gate, amount: u64)
    requires gate.maxPayment.Some? ==> amount <= gate.maxPayment.value
    ensures var offer := Offer(gate, amount);
            var accept := offer.accepts[0];
            Validate(gate, offer) == Ok(Payment(offer, accept, accept.payTo, amount))
  {
    ParseOfDecimal(amount);
  }

  lemma GreedyAttempt(gate: Gate, env: Environment, offer: PaymentRequired, w: World, req: ChatRequest, retry: bool)
    requires forall sent: seq<Send> :: env.gateway(sent) == GreedyReply(offer, sent)
    requires forall n: nat :: env.signer(n)
    requires Validate(gate, offer).Ok?
    ensures Attempt(gate, env, w, req, retry).result
            == Ok(Bought(EmptyResponse, Some(Validate(gate, offer).value.amount)))
  {
  }

  lemma GreedyDrains(gate: Gate, amount: u64)
    requires gate.maxPayment.Some? ==> amount <= gate.maxPayment.value
    ensures Drains(gate, Greedy(gate, amount), amount)
  {
    var env := Greedy(gate, amount);
    GreedyOffer(gate, amount);
    forall w: World, req: ChatRequest, retry: bool
      ensures Drained(gate, env, amount, w, Attempt(gate, env, w, req, retry))
    {
      GreedyAttempt(gate, env, Offer(gate, amount), w, req, retry);
      AttemptFacts(gate, env, w, req, retry);
    }
  }

  /** The client's detector reports a response without choices, whatever counts as whitespace. */
  lemma EmptyIsDegraded(u: Unicode)
    ensures DetectorOf(u)(EmptyResponse)
  {
  }

  lemma DrainTurn(s: Settings, bad: Detector, env: Environment, w: World, req: ChatRequest, amount: u64, total: u64, left: nat)
    requires bad(EmptyResponse) && Drains(s.gate, env, amount) && left > 0
    ensures var a := Attempt(s.gate, env, w, req, true);
            var total' := SaturatingAdd(total, amount);
            && Drained(s.gate, env, amount, w, a)
            && Retry(s, bad, env, w, req, EmptyResponse, total, left)
               == if OverBudget(s.gate, total')
                  then Outcome(a.world, Err(BudgetExceeded(total', s.gate.maxPayment.value)))
                  else Retry(s, bad, env, a.world, req, EmptyResponse, total', left - 1)
  {
    var a := Attempt(s.gate, env, w, req, true);
    assert Drained(s.gate, env, amount, w, a);
  }

  lemma DrainStart(s: Settings, bad: Detector, env: Environment, w: World, req: ChatRequest, amount: u64)
    requires bad(EmptyResponse) && Drains(s.gate, env, amount) && s.qualityCheck
    ensures var a := Attempt(s.gate, env, w, req, false);
            && Drained(s.gate, env, amount, w, a)
            && Converse(s, bad, env, w, req) == Retry(s, bad, env, a.world, req, EmptyResponse, amount, s.maxRetries)
  {
    var a := Attempt(s.gate, env, w, req, false);
    assert Drained(s.gate, env, amount, w, a);
  }

  /** Twice the cap is attained by a gateway that asks for the cap twice, if there is at least one retry. */
  lemma TwiceCapAttained(s: Settings, bad: Detector, w: World, req: ChatRequest, cap: nat)
    requires bad(EmptyResponse)
    requires Capped(s, cap) && cap >= 1 && s.qualityCheck && s.maxRetries >= 1
    ensures var o := Converse(s, bad, Greedy(s.gate, cap), w, req);
            Extends(w, o.world) && Sum(Signed(w, o.world)) == 2 * cap
            && o.result == Err(BudgetExceeded(Saturated(2 * cap), cap))
  {
    GreedyDrains(s.gate, cap);
    DrainedTwice(s, bad, Greedy(s.gate, cap), w, req, cap);
  }

  lemma DrainedTwice(s: Settings, bad: Detector, env: Environment, w: World, req: ChatRequest, cap: nat)
    requires bad(EmptyResponse) && Capped(s, cap) && cap >= 1 && s.qualityCheck && s.maxRetries >= 1
    requires Drains(s.gate, env, cap)
    ensures var o := Converse(s, bad, env, w, req);
            Extends(w, o.world) && Sum(Signed(w, o.world)) == 2 * cap
            && o.result == Err(BudgetExceeded(Saturated(2 * cap), cap))
  {
    DrainStart(s, bad, env, w, req, cap);
    var a := Attempt(s.gate, env, w, req, false);
    DrainTurn(s, bad, env, a.world, req, cap, cap, s.maxRetries);
    ExtendsChain(w, a.world, Attempt(s.gate, env, a.world, req, true).world);
    SaturatedAdd(cap, cap);
  }

  lemma OneTimesMore(n: nat, c: nat)
    requires n > 0
    ensures n * c == c + (n - 1) * c
  {
  }

  /** With the largest integer as cap the saturating test never fires, and every retry is paid for. */
  lemma DrainedTurn(s: Settings, bad: Detector, env: Environment, w: World, req: ChatRequest, total: u64, left: nat)
    requires s.gate.maxPayment == Some(U64_MAX) && bad(EmptyResponse) && Drains(s.gate, env, U64_MAX) && left > 0
    ensures var a := Attempt(s.gate, env, w, req, true);
            && Drained(s.gate, env, U64_MAX, w, a)
            && Retry(s, bad, env, w, req, EmptyResponse, total, left)
               == Retry(s, bad, env, a.world, req, EmptyResponse, SaturatingAdd(total, U64_MAX), left - 1)
  {
    DrainTurn(s, bad, env, w, req, U64_MAX, total, left);
  }

  ghost predicate Drain(w: World, w': World, n: nat) {
    Extends(w, w') && Sum(Signed(w, w')) == n * U64_MAX
  }

  lemma DrainChain(w: World, mid: World, w': World, n: nat)
    requires n > 0 && Extends(w, mid) && Sum(Signed(w, mid)) == U64_MAX && Drain(mid, w', n - 1)
    ensures Drain(w, w', n)
  {
    ExtendsChain(w, mid, w');
    OneTimesMore(n, U64_MAX);
  }

  lemma {:induction false} DrainedRetry(s: Settings, bad: Detector, env: Environment, w: World, req: ChatRequest,
                                        total: u64, left: nat)
    requires s.gate.maxPayment == Some(U64_MAX) && bad(EmptyResponse) && Drains(s.gate, env, U64_MAX)
    ensures Drain(w, Retry(s, bad, env, w, req, EmptyResponse, total, left).world, left)
    decreases left
  {
    if left > 0 {
      var a := Attempt(s.gate, env, w, req, true);
      DrainedTurn(s, bad, env, w, req, total, left);
      DrainedRetry(s, bad, env, a.world, req, SaturatingAdd(total, U64_MAX), left - 1);
      DrainChain(w, a.world, Retry(s, bad, env, w, req, EmptyResponse, total, left).world, left);
    } else {
      assert Signed(w, w) == [];
    }
  }

  lemma DrainedInFull(s: Settings, bad: Detector, env: Environment, w: World, req: ChatRequest)
    requires s.gate.maxPayment == Some(U64_MAX) && bad(EmptyResponse) && Drains(s.gate, env, U64_MAX) && s.qualityCheck
    ensures var o := Converse(s, bad, env, w, req);
            Extends(w, o.world) && Sum(Signed(w, o.world)) == U64_MAX + s.maxRetries * U64_MAX
  {
    DrainStart(s, bad, env, w, req, U64_MAX);
    var a := Attempt(s.gate, env, w, req, false);
    DrainedRetry(s, bad, env, a.world, req, U64_MAX, s.maxRetries);
    ExtendsChain(w, a.world, Converse(s, bad, env, w, req).world);
  }

  /** No gateway and no signer make a chat sign for more than `limit`. */
  ghost predicate NeverOver(s: Settings, bad: Detector, limit: nat) {
    forall env: Environment, w: World, req: ChatRequest :: SpendsAtMost(s, bad, env, w, req, limit)
  }

  ghost predicate SpendsAtMost(s: Settings, bad: Detector, env: Environment, w: World, req: ChatRequest, limit: nat) {
    var o := Converse(s, bad, env, w, req);
    Extends(w, o.world) && Sum(Signed(w, o.world)) <= limit
  }

  lemma {:induction false} SumBound(ledger: seq<Payment>, cap: nat)
    requires forall p :: p in ledger ==> p.amount <= cap
    ensures Sum(ledger) <= |ledger| * cap
  {
    if ledger != [] {
      SumBound(ledger[..|ledger| - 1], cap);
    }
  }

  lemma CountBound(s: Settings, bad: Detector, env: Environment, w: World, req: ChatRequest, cap: u64, attempts: nat)
    requires s.gate.maxPayment == Some(cap) && attempts >= if s.qualityCheck then s.maxRetries + 1 else 1
    ensures SpendsAtMost(s, bad, env, w, req, attempts * cap)
  {
    ConverseCounts(s, bad, env, w, req);
    var signed := Signed(w, Converse(s, bad, env, w, req).world);
    SumBound(signed, cap);
    TimesMonotone(|signed|, attempts, cap);
  }

  lemma TimesMonotone(m: nat, n: nat, c: nat)
    requires m <= n
    ensures m * c <= n * c
  {
  }

  /**
   The cap itself is a bound on what a chat signs for exactly when the cap is zero or no retry can happen. Otherwise a
   gateway that asks for the cap twice breaks it, although the loop tests a budget.
   */
  lemma CapIff(s: Settings, bad: Detector, cap: u64)
    requires s.gate.maxPayment == Some(cap) && bad(EmptyResponse)
    ensures NeverOver(s, bad, cap) <==> cap == 0 || !s.qualityCheck || s.maxRetries == 0
  {
    if cap == 0 || !s.qualityCheck || s.maxRetries == 0 {
      forall env: Environment, w: World, req: ChatRequest ensures SpendsAtMost(s, bad, env, w, req, cap) {
        if cap == 0 {
          CountBound(s, bad, env, w, req, cap, s.maxRetries + 1);
        } else {
          CountBound(s, bad, env, w, req, cap, 1);
        }
      }
    } else {
      var w, req := World([], 0, []), ChatRequest("", [], false);
      var env := Greedy(s.gate, cap);
      if cap < U64_MAX {
        TwiceCapAttained(s, bad, w, req, cap);
      } else {
        GreedyDrains(s.gate, cap);
        DrainedInFull(s, bad, env, w, req);
      }
      assert !SpendsAtMost(s, bad, env, w, req, cap);
    }
  }

  /** The two-cap bound holds against every gateway exactly when the cap is below the largest integer or at most two attempts are made. */
  lemma TwiceCapIff(s: Settings, bad: Detector, cap: u64)
    requires s.gate.maxPayment == Some(cap) && bad(EmptyResponse)
    ensures NeverOver(s, bad, 2 * cap) <==> cap < U64_MAX || !s.qualityCheck || s.maxRetries <= 1
  {
    if cap < U64_MAX || !s.qualityCheck || s.maxRetries <= 1 {
      forall env: Environment, w: World, req: ChatRequest ensures SpendsAtMost(s, bad, env, w, req, 2 * cap) {
        if cap < U64_MAX {
          SpendSafety(s, bad, env, w, req, cap);
        } else {
          CountBound(s, bad, env, w, req, cap, 2);
        }
      }
    } else {
      var env := Greedy(s.gate, cap);
      GreedyDrains(s.gate, cap);
      DrainedInFull(s, bad, env, World([], 0, []), ChatRequest("", [], false));
      assert !SpendsAtMost(s, bad, env, World([], 0, []), ChatRequest("", [], false), 2 * cap);
    }
  }
}
