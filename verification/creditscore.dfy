/** The credit score chaincode (chaincode/creditscore_chaincode): one
    `query` that grades a salary into "A", "B" or "C". The loan amount is
    accepted and ignored. */
module CreditScore {
  import opened Wrappers
  import opened Decimal
  import LendingRules

  /** query(salary, loanAmount) (lines 53-73): the salary must be an integer;
      the grade bands leave 10000 and 20000 without a grade. */
  function Query(salary: string, loanAmount: string): (r: Result<string>)
    ensures Atoi(salary).None? ==> r == Err(InvalidInput)
    ensures Atoi(salary).Some? ==>
      var n := Atoi(salary).value;
      && (n < 10000 <==> r == Ok("C"))
      && (10000 < n < 20000 <==> r == Ok("B"))
      && (n > 20000 <==> r == Ok("A"))
      && (n == 10000 || n == 20000 <==> r == Err(Malformed))
  {
    match Atoi(salary)
    case None => Err(InvalidInput)
    case Some(n) =>
      if n < 10000 then Ok("C")
      else if n > 10000 && n < 20000 then Ok("B")
      else if n > 20000 then Ok("A")
      else Err(Malformed)
  }

  /** The grade depends on the salary alone. */
  lemma QueryIgnoresLoan(salary: string, a: string, b: string)
    ensures Query(salary, a) == Query(salary, b)
  {
  }

  /** query and the lending chaincode's own getCreditRankScore agree on
      every integer salary written the way Itoa writes it. */
  lemma QueryAgreesWithLending(n: int, loanAmount: string)
    ensures Query(Itoa(n), loanAmount) == LendingRules.CreditRankScore(n)
  {
    AtoiItoa(n);
  }

  /** Invoke (lines 23-50) after the identity lookups: only "query" is
      known, and it reads two arguments without checking that they exist,
      which is an index-out-of-range panic. */
  function Invoke(fn: string, args: seq<string>): (r: Result<string>)
    ensures fn != "query" ==> r == Err(InvalidInput)
    ensures fn == "query" && |args| < 2 ==> r == Err(Panic)
    ensures fn == "query" && |args| >= 2 ==> r == Query(args[0], args[1])
  {
    if fn != "query" then Err(InvalidInput)
    else if |args| < 2 then Err(Panic)
    else Query(args[0], args[1])
  }
}
