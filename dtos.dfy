/** Request validation of the two payment DTOs: the top-up amount of
    src/modules/payments/dtos/request-payment.dto.ts (rounded to cents, then
    checked against its bounds) and the internal service-fee request of
    src/modules/payments/dtos/charge-service-fee.dto.ts.  Each validator
    returns the set of constraints that failed, as class-validator reports
    every failing decorator. */
module Dtos {
  import opened Wrappers

  /** A value of the parsed JSON body; `Undefined` is a missing key. */
  datatype JsValue = Undefined | Null | Bool(b: bool) | Num(n: real) | Str(s: string)

  /** A JavaScript number: NaN or a finite value. */
  datatype Numeric = NaN | Finite(v: real)

  /** The number JavaScript's `value * 100` starts from.  Every string is
      taken as non-numeric (see README). */
  function ToNumber(v: JsValue): Numeric
  {
    match v
    case Undefined => NaN
    case Null => Finite(0.0)
    case Bool(b) => Finite(if b then 1.0 else 0.0)
    case Num(n) => Finite(n)
    case Str(_) => NaN
  }

  /** `Math.round`: the nearest integer, halves upward. */
  function RoundHalfUp(x: real): (r: int)
    ensures x - 0.5 < r as real <= x + 0.5
  {
    (x + 0.5).Floor
  }

  /** `Math.round(v * 100) / 100`: the nearest cent, halves upward. */
  function RoundToCents(v: real): (r: real)
    ensures v - 0.005 < r <= v + 0.005
    ensures (r * 100.0).Floor as real == r * 100.0
  {
    RoundHalfUp(v * 100.0) as real / 100.0
  }

  lemma RoundToCentsIdempotent(v: real)
    ensures RoundToCents(RoundToCents(v)) == RoundToCents(v)
  {
    var n := RoundHalfUp(v * 100.0);
    assert RoundToCents(v) * 100.0 == n as real;
    assert (n as real + 0.5).Floor == n;
  }

  /** The class-validator decorators, by name. */
  datatype Constraint = IsNotEmpty | IsString | IsNumber | Max | Min

  const MinimumAmount := 10.0
  const MaximumAmount := 100000.0
  const MinimumMessage := "Minimum amount is 10"

  /** The message reported for a failed amount constraint.  Only `@Min`
      carries a custom message; the others use class-validator's own text,
      which is not modelled. */
  function AmountMessage(c: Constraint): Option<string>
  {
    if c == Min then Some(MinimumMessage) else None
  }

  /** `@IsNotEmpty()`: not '', null or undefined. */
  predicate NotEmpty(v: JsValue)
  {
    v != Undefined && v != Null && v != Str("")
  }

  /** The amount after `@Transform`: a missing key is not transformed; any
      present value goes through `Math.round(value * 100) / 100`. */
  function TransformedAmount(raw: JsValue): Option<Numeric>
  {
    if raw == Undefined then None
    else match ToNumber(raw)
      case NaN => Some(NaN)
      case Finite(v) => Some(Finite(RoundToCents(v)))
  }

  function AmountFailures(raw: JsValue): set<Constraint>
  {
    match TransformedAmount(raw)
    case None => {IsNotEmpty, IsNumber, Max, Min}
    case Some(NaN) => {IsNumber, Max, Min}
    case Some(Finite(r)) =>
      (if r > MaximumAmount then {Max} else {}) + (if r < MinimumAmount then {Min} else {})
  }

  /** `RequestPaymentDto.amount`: the rounded amount when it validates. */
  function ValidateRequestPayment(raw: JsValue): (r: Result<real, set<Constraint>>)
    ensures r.Ok? <==> (ToNumber(raw).Finite? && raw != Undefined &&
                        MinimumAmount <= RoundToCents(ToNumber(raw).v) <= MaximumAmount)
    ensures r.Ok? ==> r.value == RoundToCents(ToNumber(raw).v)
    ensures r.Err? ==> r.error != {}
  {
    var failures := AmountFailures(raw);
    if failures == {} then Ok(TransformedAmount(raw).value.v) else Err(failures)
  }

  /** What the services may rely on for a validated top-up amount. */
  predicate ValidTopUpAmount(amount: real)
  {
    MinimumAmount <= amount <= MaximumAmount && RoundToCents(amount) == amount
  }

  lemma ValidatedAmountIsValid(raw: JsValue)
    requires ValidateRequestPayment(raw).Ok?
    ensures ValidTopUpAmount(ValidateRequestPayment(raw).value)
  {
    RoundToCentsIdempotent(ToNumber(raw).v);
  }

  /** A missing or non-numeric amount is refused. */
  lemma NonNumericAmountRejected(raw: JsValue)
    requires raw == Undefined || raw.Str?
    ensures ValidateRequestPayment(raw).Err?
    ensures IsNumber in ValidateRequestPayment(raw).error
  {
  }

  /** Below 10 after rounding: refused with 'Minimum amount is 10'. */
  lemma BelowMinimumRejected(raw: JsValue)
    requires raw != Undefined && ToNumber(raw).Finite? && RoundToCents(ToNumber(raw).v) < MinimumAmount
    ensures ValidateRequestPayment(raw).Err?
    ensures Min in ValidateRequestPayment(raw).error
    ensures AmountMessage(Min) == Some("Minimum amount is 10")
  {
  }

  /** Both bounds are inclusive, and rounding happens before the check:
      9.996 rounds up to 10.00 and passes, 9.994 rounds to 9.99 and fails,
      100000.005 rounds to 100000.01 and fails. */
  lemma RoundingBeforeBounds()
    ensures ValidateRequestPayment(Num(10.0)) == Ok(10.0)
    ensures ValidateRequestPayment(Num(100000.0)) == Ok(100000.0)
    ensures ValidateRequestPayment(Num(9.996)) == Ok(10.0)
    ensures ValidateRequestPayment(Num(9.994)) == Err({Min})
    ensures ValidateRequestPayment(Num(100000.005)) == Err({Max})
  {
    assert RoundHalfUp(1000.0 * 1.0) == 1000;
    assert RoundHalfUp(10000000.0) == 10000000;
    assert 9.996 * 100.0 == 999.6;
    assert RoundHalfUp(999.6) == 1000;
    assert 9.994 * 100.0 == 999.4;
    assert (999.4 + 0.5).Floor == 999;
    assert RoundToCents(9.994) == 9.99;
    assert AmountFailures(Num(9.994)) == {Min};
    assert 100000.005 * 100.0 == 10000000.5;
    assert (10000000.5 + 0.5).Floor == 10000001;
    assert RoundToCents(100000.005) == 100000.01;
    assert AmountFailures(Num(100000.005)) == {Max};
  }

  /** The internal service-fee request body and its validated form. */
  datatype ChargeServiceFeeBody = ChargeServiceFeeBody(userId: JsValue, meetingId: JsValue, amount: JsValue)
  datatype ChargeServiceFeeDto = ChargeServiceFeeDto(userId: string, meetingId: string, amount: real)

  datatype Field = UserIdField | MeetingIdField | AmountField
  datatype FieldError = FieldError(field: Field, constraint: Constraint)

  /** `@IsNotEmpty() @IsString()`. */
  function StringFailures(f: Field, v: JsValue): (r: set<FieldError>)
    ensures r == {} <==> v.Str? && v.s != ""
    ensures forall e :: e in r ==> e.field == f
  {
    (if NotEmpty(v) then {} else {FieldError(f, IsNotEmpty)}) +
    (if v.Str? then {} else {FieldError(f, IsString)})
  }

  /** `@IsNotEmpty() @IsNumber() @Min(0)`. */
  function FeeFailures(v: JsValue): set<FieldError>
  {
    (if NotEmpty(v) then {} else {FieldError(AmountField, IsNotEmpty)}) +
    (if v.Num? then {} else {FieldError(AmountField, IsNumber)}) +
    (if v.Num? && v.n >= 0.0 then {} else {FieldError(AmountField, Min)})
  }

  predicate ValidChargeServiceFee(dto: ChargeServiceFeeDto)
  {
    dto.userId != "" && dto.meetingId != "" && dto.amount >= 0.0
  }

  function ValidateChargeServiceFee(body: ChargeServiceFeeBody): (r: Result<ChargeServiceFeeDto, set<FieldError>>)
    ensures r.Ok? <==>
      && body.userId.Str? && body.userId.s != ""
      && body.meetingId.Str? && body.meetingId.s != ""
      && body.amount.Num? && body.amount.n >= 0.0
    ensures r.Ok? ==> r.value == ChargeServiceFeeDto(body.userId.s, body.meetingId.s, body.amount.n)
    ensures r.Ok? ==> ValidChargeServiceFee(r.value)
    ensures r.Err? ==> r.error != {}
  {
    var failures := StringFailures(UserIdField, body.userId) + StringFailures(MeetingIdField, body.meetingId) + FeeFailures(body.amount);
    if failures == {} then Ok(ChargeServiceFeeDto(body.userId.s, body.meetingId.s, body.amount.n))
    else Err(failures)
  }

  /** A zero fee passes `@Min(0)`. */
  lemma ZeroFeeAccepted(userId: string, meetingId: string)
    requires userId != "" && meetingId != ""
    ensures ValidateChargeServiceFee(ChargeServiceFeeBody(Str(userId), Str(meetingId), Num(0.0))).Ok?
  {
  }

}
