/** The pure decisions of the lending chaincode: the caller check, the credit
    grade, the input ranges of the payment calculation, and the checks a bank
    runs before approving a loan and before settling it. */
module LendingRules {
  import opened Wrappers
  import opened LendingTypes

  /** getIdentity(expected) (lines 1842-1867) with the caller's MSP and
      identity as inputs: an empty `expected` admits every caller. */
  function GetIdentity(expected: string, msp: string, id: string): (r: Result<string>)
    ensures r.Err? <==> expected != "" && msp != expected
    ensures r.Ok? ==> r.value == id
    ensures r.Err? ==> r.error == Unauthorized
  {
    if expected != "" && msp != expected then Err(Unauthorized) else Ok(id)
  }

  /** getCreditRankScore (lines 2005-2016): grade bands on the salary. */
  function CreditRankScore(salary: int): Result<string>
  {
    if salary < 10000 then Ok("C")
    else if salary > 10000 && salary < 20000 then Ok("B")
    else if salary > 20000 then Ok("A")
    else Err(Malformed)
  }

  /** Every salary gets exactly one outcome; the two band edges get none. */
  lemma CreditRankBands(salary: int)
    ensures CreditRankScore(salary).Err? <==> salary == 10000 || salary == 20000
    ensures CreditRankScore(salary) == Ok("C") <==> salary < 10000
    ensures CreditRankScore(salary) == Ok("B") <==> 10000 < salary < 20000
    ensures CreditRankScore(salary) == Ok("A") <==> salary > 20000
    ensures CreditRankScore(salary).Ok? ==> CreditRankScore(salary).value in {"A", "B", "C"}
  {
  }

  /** Position of a grade letter, "C" lowest. */
  function GradeRank(g: string): nat
  {
    if g == "A" then 2 else if g == "B" then 1 else 0
  }

  /** A higher salary never gets a worse grade. */
  lemma CreditRankMonotone(s: int, t: int)
    requires s <= t
    requires CreditRankScore(s).Ok? && CreditRankScore(t).Ok?
    ensures GradeRank(CreditRankScore(s).value) <= GradeRank(CreditRankScore(t).value)
  {
  }

  /** calcPmt's input checks (lines 2201-2213); the loan is an int converted
      to float64, the rate the float the bank passed in. */
  function PaymentInputs(interest: real, months: int, loan: int): (o: Outcome)
    ensures o.Pass? <==> 0.0 <= interest <= 100.0 && 1 <= months <= 500 && 1 <= loan <= 100000000
    ensures o.Fail? ==> o.error == InvalidInput
  {
    if interest > 100.0 || interest < 0.0 then Fail(InvalidInput)
    else if months < 1 || months > 500 then Fail(InvalidInput)
    else if loan < 1 || loan > 100000000 then Fail(InvalidInput)
    else Pass
  }

  /** calcPmt: the checks, then the payment formula taken from `env`. */
  function CalcPmt(env: Env, interest: real, months: int, loan: int): (r: Result<real>)
    ensures r.Ok? <==> PaymentInputs(interest, months, loan).Pass?
  {
    match PaymentInputs(interest, months, loan)
    case Fail(e) => Err(e)
    case Pass => Ok(env.payment(interest, months, loan))
  }

  /** validateBankOwner's loop (lines 2061-2065): false as soon as an offer
      with the selected hash belongs to another bank. */
  function BankOwnerValid(offers: seq<BankOffer>, selected: string, bank: string): (ok: bool)
    ensures ok <==> forall i | 0 <= i < |offers| :: offers[i].hash == selected ==> offers[i].bankHash == bank
    decreases |offers|
  {
    if |offers| == 0 then true
    else if offers[0].hash == selected && offers[0].bankHash != bank then false
    else
      var rest := BankOwnerValid(offers[1..], selected, bank);
      assert forall i | 1 <= i < |offers| :: offers[i] == offers[1..][i - 1];
      rest
  }

  /** validateBankOwner(request, bank) (lines 2059-2068). A selected hash
      that names no offer at all passes. */
  function ValidateBankOwner(r: Request, bank: string): (o: Outcome)
    ensures o.Pass? <==> forall i | 0 <= i < |r.bankOffers| :: r.bankOffers[i].hash == r.selectedBankOfferHash ==> r.bankOffers[i].bankHash == bank
    ensures o.Fail? ==> o.error == Forbidden
  {
    if BankOwnerValid(r.bankOffers, r.selectedBankOfferHash, bank) then Pass else Fail(Forbidden)
  }

  const TooLowReason := "appraiser amount is too low for this loan"
  const NoInsuranceReason := "No insurance offer was selected"

  /** Any of the three government flags set. */
  predicate AnyFlag(g: GovernmentResults) {
    g.checkHouseOwner || g.checkLien || g.checkWarningShot
  }

  /** bankValidateBeforeApprove (lines 2030-2057): the decline reason, empty
      when the loan is approved. Line 2043 is read in exact arithmetic:
      AppraiserAmount < LoanAmount + AppraiserAmount * 0.1. A request the
      government never reported on is a nil pointer dereference. */
  function ValidateBeforeApprove(r: Request, bank: string): (v: Result<string>)
    ensures r.governmentResults.None? ==> v == Err(Panic)
    ensures r.governmentResults.Some? && AnyFlag(r.governmentResults.value) ==> v == Ok("")
    ensures r.governmentResults.Some? && !AnyFlag(r.governmentResults.value) ==>
      if 9 * r.appraiserAmount < 10 * r.loanAmount then v == Ok(TooLowReason)
      else if |r.selectedInsuranceOfferHash| == 0 then v == Ok(NoInsuranceReason)
      else if ValidateBankOwner(r, bank).Fail? then v == Err(Forbidden)
      else v == Ok("")
  {
    match r.governmentResults
    case None => Err(Panic)
    case Some(g) =>
      if g.checkHouseOwner then Ok("")
      else if g.checkLien then Ok("")
      else if g.checkWarningShot then Ok("")
      else if (r.appraiserAmount as real) < (r.loanAmount as real) + (r.appraiserAmount as real) * 0.1 then Ok(TooLowReason)
      else if |r.selectedInsuranceOfferHash| == 0 then Ok(NoInsuranceReason)
      else
        :- ValidateBankOwner(r, bank);
        Ok("")
  }
}
