/** The signing gate: which 402 offers the client will sign a transaction for. */
module Payment {
  import opened Prelude

  /** One offer of a 402 body. The amount is the decimal text sent by the gateway. */
  datatype Accept = Accept(scheme: string, network: string, asset: string, amount: string, payTo: string)

  datatype PaymentRequired = PaymentRequired(accepts: seq<Accept>)

  /** A transaction that was signed, with the 402 body and the offer it answers. */
  datatype Payment = Payment(required: PaymentRequired, accept: Accept, payTo: string, amount: u64)

  /** `network` and `mint` are the Solana mainnet and USDC constants of the protocol crate. */
  datatype Gate = Gate(network: string, mint: string, expectedRecipient: Option<string>, maxPayment: Option<u64>)

  datatype ClientError =
    | Network
    | ParseError
    | Gateway(status: nat, message: string)
    | PaymentRejected(message: string)
    | NoCompatibleScheme
    | RecipientMismatch(expected: string, actual: string)
    | AmountExceedsMax(amount: u64, max: u64)
    | Signing
    | BudgetExceeded(spent: u64, cap: u64)
    | StreamError

  // ---------------------------------------------------------------- amounts

  predicate IsDigit(c: char) {
    '0' <= c <= '9'
  }

  function Digit(c: char): nat
    requires IsDigit(c)
  {
    c as int - '0' as int
  }

  /** Digit by digit, giving up as soon as 64 bits are exceeded. */
  function ParseDigits(s: string, acc: u64): Option<u64> {
    if s == "" then Some(acc)
    else if !IsDigit(s[0]) || acc * 10 > U64_MAX || acc * 10 + Digit(s[0]) > U64_MAX then None
    else ParseDigits(s[1..], acc * 10 + Digit(s[0]))
  }

  /** `str::parse::<u64>`: decimal digits with an optional leading plus sign. */
  function ParseU64(s: string): Option<u64> {
    if s == "" || s == "+" then None
    else ParseDigits(if s[0] == '+' then s[1..] else s, 0)
  }

  predicate AllDigits(s: string) {
    forall i :: 0 <= i < |s| ==> IsDigit(s[i])
  }

  /** The unbounded value of a digit string read after the digits of `acc`. */
  function ValueFrom(acc: nat, s: string): nat
    requires AllDigits(s)
    decreases s
  {
    if s == "" then acc else ValueFrom(acc * 10 + Digit(s[0]), s[1..])
  }

  lemma {:induction false} ValueGrows(acc: nat, s: string)
    requires AllDigits(s)
    ensures ValueFrom(acc, s) >= acc
    decreases s
  {
    if s != "" {
      ValueGrows(acc * 10 + Digit(s[0]), s[1..]);
    }
  }

  lemma {:induction false} ParseDigitsExact(s: string, acc: u64)
    ensures ParseDigits(s, acc) == if AllDigits(s) && ValueFrom(acc, s) <= U64_MAX then Some(ValueFrom(acc, s)) else None
  {
    if s != "" {
      if AllDigits(s) {
        ValueGrows(acc * 10 + Digit(s[0]), s[1..]);
      }
      assert s == [s[0]] + s[1..];
      if IsDigit(s[0]) && acc * 10 + Digit(s[0]) <= U64_MAX {
        ParseDigitsExact(s[1..], acc * 10 + Digit(s[0]));
      }
    }
  }

  /** The early overflow test loses nothing: a text parses iff it is a numeral whose unbounded value fits in 64 bits. */
  lemma ParseExact(s: string)
    ensures var d := if s != "" && s[0] == '+' then s[1..] else s;
            ParseU64(s) == if d != "" && AllDigits(d) && ValueFrom(0, d) <= U64_MAX then Some(ValueFrom(0, d)) else None
  {
    var d := if s != "" && s[0] == '+' then s[1..] else s;
    ParseDigitsExact(d, 0);
    assert s == "+" ==> d == "";
    assert s != "" && s[0] == '+' && |s| == 1 ==> s == "+";
  }

  function Decimal(n: nat): string {
    var last := ['0' + (n % 10) as char];
    if n < 10 then last else Decimal(n / 10) + last
  }

  lemma {:induction false} ValueOfAppend(acc: nat, s: string, c: char)
    requires AllDigits(s) && IsDigit(c)
    ensures AllDigits(s + [c]) && ValueFrom(acc, s + [c]) == ValueFrom(acc, s) * 10 + Digit(c)
    decreases s
  {
    if s == "" {
      assert s + [c] == [c];
      assert [c][1..] == "";
    } else {
      assert forall i :: 0 <= i < |s| - 1 ==> s[1..][i] == s[i + 1];
      assert (s + [c])[1..] == s[1..] + [c];
      ValueOfAppend(acc * 10 + Digit(s[0]), s[1..], c);
    }
  }

  lemma {:induction false} DecimalDigits(n: nat)
    ensures Decimal(n) != "" && AllDigits(Decimal(n)) && ValueFrom(0, Decimal(n)) == n
  {
    var c := '0' + (n % 10) as char;
    assert IsDigit(c) && Digit(c) == n % 10;
    if n < 10 {
      ValueOfAppend(0, "", c);
      assert "" + [c] == [c];
    } else {
      DecimalDigits(n / 10);
      ValueOfAppend(0, Decimal(n / 10), c);
    }
  }

  lemma ParseOfDecimal(n: u64)
    ensures ParseU64(Decimal(n)) == Some(n)
  {
    DecimalDigits(n);
    ParseExact(Decimal(n));
    assert IsDigit(Decimal(n)[0]);
  }

  // ---------------------------------------------------------------- the gate

  /** The first compatible offer, if there is one. */
  function PickScheme(gate: Gate, accepts: seq<Accept>): Option<Accept> {
    if accepts == [] then None
    else if accepts[0].scheme == "exact" && accepts[0].network == gate.network && accepts[0].asset == gate.mint
    then Some(accepts[0])
    else PickScheme(gate, accepts[1..])
  }

  /** All tests made before anything is signed. */
  function Validate(gate: Gate, required: PaymentRequired): Result<Payment, ClientError> {
    match PickScheme(gate, required.accepts)
    case None => Err(NoCompatibleScheme)
    case Some(a) =>
      if gate.expectedRecipient.Some? && a.payTo != gate.expectedRecipient.value
      then Err(RecipientMismatch(gate.expectedRecipient.value, a.payTo))
      else
        match ParseU64(a.amount)
        case None => Err(ParseError)
        case Some(n) =>
          if gate.maxPayment.Some? && n > gate.maxPayment.value then Err(AmountExceedsMax(n, gate.maxPayment.value))
          else Ok(Payment(required, a, a.payTo, n))
  }

  /** An offer the client can sign for: an exact transfer of USDC on Solana. */
  ghost predicate Compatible(gate: Gate, a: Accept) {
    a.scheme == "exact" && a.network == gate.network && a.asset == gate.mint
  }

  /** `i` is the position of the first compatible offer. */
  ghost predicate FirstCompatible(gate: Gate, accepts: seq<Accept>, i: int) {
    0 <= i < |accepts| && Compatible(gate, accepts[i]) && forall j :: 0 <= j < i ==> !Compatible(gate, accepts[j])
  }

  /** What every signed transaction satisfies. */
  ghost predicate Gated(gate: Gate, p: Payment) {
    && (exists i :: FirstCompatible(gate, p.required.accepts, i) && p.accept == p.required.accepts[i])
    && p.payTo == p.accept.payTo
    && (gate.expectedRecipient.Some? ==> p.payTo == gate.expectedRecipient.value)
    && ParseU64(p.accept.amount) == Some(p.amount)
    && (gate.maxPayment.Some? ==> p.amount <= gate.maxPayment.value)
  }

  lemma {:induction false} PickSchemeIsFirst(gate: Gate, accepts: seq<Accept>)
    ensures PickScheme(gate, accepts).None? <==> forall i :: 0 <= i < |accepts| ==> !Compatible(gate, accepts[i])
    ensures forall i :: FirstCompatible(gate, accepts, i) ==> PickScheme(gate, accepts) == Some(accepts[i])
    ensures PickScheme(gate, accepts).Some?
            ==> exists i :: FirstCompatible(gate, accepts, i) && accepts[i] == PickScheme(gate, accepts).value
  {
    if accepts != [] {
      if Compatible(gate, accepts[0]) {
        assert FirstCompatible(gate, accepts, 0);
      } else {
        var rest := accepts[1..];
        PickSchemeIsFirst(gate, rest);
        if i :| FirstCompatible(gate, rest, i) && PickScheme(gate, rest) == Some(rest[i]) {
          assert FirstCompatible(gate, accepts, i + 1);
        }
        forall i | FirstCompatible(gate, accepts, i) ensures PickScheme(gate, accepts) == Some(accepts[i]) {
          assert FirstCompatible(gate, rest, i - 1);
        }
      }
    }
  }

  /** The gate passes exactly the gated payments for a 402 body, of which there is at most one. */
  lemma ValidateExact(gate: Gate, required: PaymentRequired, p: Payment)
    ensures Validate(gate, required) == Ok(p) <==> p.required == required && Gated(gate, p)
  {
    PickSchemeIsFirst(gate, required.accepts);
  }

  // ---------------------------------------------------------------- refusals

  ghost predicate RecipientOk(gate: Gate, a: Accept) {
    gate.expectedRecipient.Some? ==> a.payTo == gate.expectedRecipient.value
  }

  /** The first compatible offer fails the clause of the gate that `e` is about, having met the ones before it. */
  ghost predicate RefusedAt(gate: Gate, a: Accept, e: ClientError) {
    match e
    case RecipientMismatch(expected, actual) =>
      gate.expectedRecipient == Some(expected) && a.payTo == actual && actual != expected
    case ParseError => RecipientOk(gate, a) && ParseU64(a.amount).None?
    case AmountExceedsMax(amount, max) =>
      RecipientOk(gate, a) && ParseU64(a.amount) == Some(amount) && gate.maxPayment == Some(max) && amount > max
    case _ => false
  }

  /** Why a 402 body is not paid for: nothing in it is compatible, or its first compatible offer fails a clause. */
  ghost predicate Refused(gate: Gate, required: PaymentRequired, e: ClientError) {
    if e.NoCompatibleScheme? then forall i :: 0 <= i < |required.accepts| ==> !Compatible(gate, required.accepts[i])
    else exists i :: FirstCompatible(gate, required.accepts, i) && RefusedAt(gate, required.accepts[i], e)
  }

  /** The gate reports exactly the clause that fails, with the amounts or recipients concerned. */
  lemma ValidateRefuses(gate: Gate, required: PaymentRequired, e: ClientError)
    ensures Validate(gate, required) == Err(e) <==> Refused(gate, required, e)
  {
    PickSchemeIsFirst(gate, required.accepts);
    if i :| FirstCompatible(gate, required.accepts, i) {
      assert PickScheme(gate, required.accepts) == Some(required.accepts[i]);
    }
  }
}
