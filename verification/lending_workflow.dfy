/** The lending workflow as a whole: which organisation may call which
    invocation, what a run of invocations does to the request store, and how
    a request travels through the named queues.

    A request moves creditRankOpenRequests -> open4bankoffers ->
    selectAppraiser -> pendingForAppraiserEstimation_<appraiser> ->
    open4InsuranceOffers, then (without a membership check on the way)
    pending4Government -> pending4bankApproval -> pending4ChaincodeExecute.
    The status literals are written along the way but never read. */
module LendingWorkflow {
  import opened Wrappers
  import opened LendingTypes
  import opened RequestQueues
  import opened RequestStore
  import opened LendingRules
  import H = LendingHandlers

  /** The invocations of the lending chaincode that this model covers. */
  datatype Op =
    | Advertise | Buy | CalcCreditScore | BankPutOffer | BuyerSelectBankOffer
    | BuyerSelectAppraiser | AppraiserProvideAmount | InsurancePutOffer
    | BuyerSelectInsuranceOffer | GovernmentPutData | BankApprove | BankRunChaincode

  /** One invocation: what is called, by whom, with which arguments. */
  datatype Call = Call(op: Op, msp: string, id: string, args: seq<string>)

  /** The organisation each invocation demands of its caller. */
  function Role(op: Op): string
  {
    match op
    case Advertise => SellerMsp
    case Buy | BuyerSelectBankOffer | BuyerSelectAppraiser | BuyerSelectInsuranceOffer => BuyerMsp
    case CalcCreditScore => CreditRatingMsp
    case BankPutOffer | BankApprove | BankRunChaincode => BankMsp
    case AppraiserProvideAmount => AppraiserMsp
    case InsurancePutOffer => InsuranceMsp
    case GovernmentPutData => GovernmentMsp
  }

  /** One invocation against the ledger `L`. */
  function Step(L: Ledger, env: Env, c: Call): Result<Ledger>
  {
    match c.op
    case Advertise => H.Advertise(L, env, c.msp, c.id, c.args)
    case Buy => H.Buy(L, env, c.msp, c.id, c.args)
    case CalcCreditScore => H.CalcCreditScore(L, env, c.msp, c.id, c.args)
    case BankPutOffer => H.BankPutOffer(L, env, c.msp, c.id, c.args)
    case BuyerSelectBankOffer => H.BuyerSelectBankOffer(L, env, c.msp, c.id, c.args)
    case BuyerSelectAppraiser => H.BuyerSelectAppraiser(L, env, c.msp, c.id, c.args)
    case AppraiserProvideAmount => H.AppraiserProvideAmount(L, env, c.msp, c.id, c.args)
    case InsurancePutOffer => H.InsurancePutOffer(L, env, c.msp, c.id, c.args)
    case BuyerSelectInsuranceOffer => H.BuyerSelectInsuranceOffer(L, env, c.msp, c.id, c.args)
    case GovernmentPutData => H.GovernmentPutData(L, env, c.msp, c.id, c.args)
    case BankApprove => H.BankApprove(L, env, c.msp, c.id, c.args)
    case BankRunChaincode => H.BankRunChaincode(L, env, c.msp, c.id, c.args)
  }

  /** Only a caller of the organisation the invocation demands gets through. */
  lemma StepNeedsRole(L: Ledger, env: Env, c: Call)
    ensures Step(L, env, c).Ok? ==> c.msp == Role(c.op)
  {
    match c.op
    case Advertise =>
    case Buy =>
    case CalcCreditScore =>
    case BankPutOffer =>
    case BuyerSelectBankOffer =>
    case BuyerSelectAppraiser =>
    case AppraiserProvideAmount =>
    case InsurancePutOffer =>
    case BuyerSelectInsuranceOffer =>
    case GovernmentPutData =>
    case BankApprove =>
    case BankRunChaincode =>
  }

  /** Every successful invocation keeps the request store's invariant. */
  lemma StepEvolves(L: Ledger, env: Env, c: Call)
    ensures Step(L, env, c).Ok? ==> RequestsEvolve(L, Step(L, env, c).value)
  {
    match c.op
    case Advertise =>
    case Buy =>
    case CalcCreditScore =>
    case BankPutOffer =>
    case BuyerSelectBankOffer =>
    case BuyerSelectAppraiser =>
    case AppraiserProvideAmount =>
    case InsurancePutOffer =>
    case BuyerSelectInsuranceOffer =>
    case GovernmentPutData =>
    case BankApprove =>
    case BankRunChaincode =>
  }

  /** A sequence of invocations, each committed when it succeeds and
      discarded when it fails. */
  function Run(L: Ledger, env: Env, calls: seq<Call>): Ledger
    decreases |calls|
  {
    if |calls| == 0 then L else Run(Step(L, env, calls[0]).GetOr(L), env, calls[1..])
  }

  /** Over any run, a request that could be read can still be read, and the
      statuses stay among the twelve literals. */
  lemma {:induction false} RunKeepsRequests(L: Ledger, env: Env, calls: seq<Call>)
    ensures RequestsEvolve(L, Run(L, env, calls))
    decreases |calls|
  {
    if |calls| > 0 {
      var L1 := Step(L, env, calls[0]).GetOr(L);
      StepEvolves(L, env, calls[0]);
      RunKeepsRequests(L1, env, calls[1..]);
      RequestsEvolveTransitive(L, L1, Run(L1, env, calls[1..]));
    }
  }

  /** The empty world state. */
  const Genesis := Ledger(map[], map[], map[], map[])

  /** From the empty world state, every stored request has one of the
      twelve statuses, whatever is invoked. */
  lemma StatusesAlwaysKnown(env: Env, calls: seq<Call>)
    ensures StatusesKnown(Run(Genesis, env, calls))
  {
    RunKeepsRequests(Genesis, env, calls);
  }

  // ------------------------------------------------------ the offer path

  lemma {:induction false} CountAppend(xs: seq<RequestLink>, link: RequestLink, h: string)
    ensures Count(xs + [link], h) == Count(xs, h) + (if link.requestHash == h then 1 else 0)
    decreases |xs|
  {
    if |xs| > 0 {
      CountAppend(xs[1..], link, h);
      assert (xs + [link])[1..] == xs[1..] + [link];
    }
  }

  /** calcCreditScore puts a request on open4bankoffers exactly once when it
      was not there before. */
  lemma CreditScoreQueuesOnce(L: Ledger, env: Env, id: string, args: seq<string>)
    requires H.CalcCreditScore(L, env, CreditRatingMsp, id, args).Ok?
    requires !HasRequest(QueueOf(L, Open4BankOffers), env.decodeLink(args[0]).value.requestHash)
    ensures Count(QueueOf(H.CalcCreditScore(L, env, CreditRatingMsp, id, args).value, Open4BankOffers),
                  env.decodeLink(args[0]).value.requestHash) == 1
  {
    var link := env.decodeLink(args[0]).value;
    var req := H.Linked(L, link);
    CountPositive(QueueOf(L, Open4BankOffers), link.requestHash);
    CountAppend(QueueOf(L, Open4BankOffers), LinkOf(req), link.requestHash);
  }

  /** bankPutOffer removes the request from open4bankoffers. When it was
      queued there once, as calcCreditScore leaves it, no later
      buyerSelectBankOffer for it can succeed: the buyer can never select an
      offer, and the workflow stops here. */
  lemma OfferPathStuck(L: Ledger, env: Env, bank: string, offerArgs: seq<string>, buyer: string, offerHash: string)
    requires H.BankPutOffer(L, env, BankMsp, bank, offerArgs).Ok?
    requires Count(QueueOf(L, Open4BankOffers), env.decodeLink(offerArgs[0]).value.requestHash) == 1
    ensures H.BuyerSelectBankOffer(H.BankPutOffer(L, env, BankMsp, bank, offerArgs).value, env, BuyerMsp, buyer,
                                   [env.decodeLink(offerArgs[0]).value.requestHash, offerHash]).Err?
  {
    var h := env.decodeLink(offerArgs[0]).value.requestHash;
    var L1 := H.BankPutOffer(L, env, BankMsp, bank, offerArgs).value;
    SkipRemoveSingle(QueueOf(L, Open4BankOffers), h);
    CountPositive(QueueOf(L1, Open4BankOffers), h);
  }

  /** For the same reason a second bank cannot make an offer on the request. */
  lemma SecondOfferRefused(L: Ledger, env: Env, bank: string, offerArgs: seq<string>, bank2: string, args2: seq<string>)
    requires H.BankPutOffer(L, env, BankMsp, bank, offerArgs).Ok?
    requires Count(QueueOf(L, Open4BankOffers), env.decodeLink(offerArgs[0]).value.requestHash) == 1
    requires |args2| == 3 && env.decodeLink(args2[0]) == env.decodeLink(offerArgs[0])
    ensures H.BankPutOffer(H.BankPutOffer(L, env, BankMsp, bank, offerArgs).value, env, BankMsp, bank2, args2).Err?
  {
    var h := env.decodeLink(offerArgs[0]).value.requestHash;
    var L1 := H.BankPutOffer(L, env, BankMsp, bank, offerArgs).value;
    SkipRemoveSingle(QueueOf(L, Open4BankOffers), h);
    CountPositive(QueueOf(L1, Open4BankOffers), h);
  }

  /** bankPutOffer as evidently intended: the request must be open for
      offers, and it stays open so that other banks can offer and the buyer
      can later select one (buyerSelectBankOffer is what takes it off the
      queue). */
  function BankPutOfferFixed(L: Ledger, env: Env, msp: string, id: string, args: seq<string>): (r: Result<Ledger>)
    ensures r.Ok? <==> H.BankPutOffer(L, env, msp, id, args).Ok?
    ensures r.Ok? ==>
      var link := env.decodeLink(args[0]).value;
      var interest := env.parseFloat(args[2]).value;
      var req := H.Linked(L, link);
      var offer := BankOffer(args[1], id, interest, env.payment(interest, req.duration, req.loanAmount));
      && GetRequest(r.value, req.buyerHash, req.hash) == Ok(req.(status := StatusBankOfferInstalled, bankOffers := req.bankOffers + [offer]))
      && (forall b | b != req.buyerHash :: Lookup(r.value.requests, b) == Lookup(L.requests, b))
      && r.value.queues == L.queues && r.value.properties == L.properties && r.value.money == L.money
      && RequestsEvolve(L, r.value)
  {
    if |args| != 3 then Err(WrongArgumentCount) else
    var identity :- GetIdentity(BankMsp, msp, id);
    :- Need(|args[0]| > 0, EmptyArgument);
    :- Need(|args[1]| > 0, EmptyArgument);
    :- Need(|args[2]| > 0, EmptyArgument);
    var link :- OrMalformed(env.decodeLink(args[0]));
    var interest :- OrMalformed(env.parseFloat(args[2]));
    var request :- GetRequest(L, link.userHash, link.requestHash);
    var payment :- CalcPmt(env, interest, request.duration, request.loanAmount);
    var req := request.(status := StatusBankOfferInstalled,
                        bankOffers := request.bankOffers + [BankOffer(args[1], identity, interest, payment)]);
    var L1 :- PutRequest(L, L, req);
    PutRequestEvolves(L, L, req);
    :- Need(Queued(L, Open4BankOffers, link.requestHash), NotQueued);
    Ok(L1)
  }

  /** With the corrected offer, the buyer can select the offer just made. */
  lemma FixedOfferThenSelect(L: Ledger, env: Env, bank: string, offerArgs: seq<string>)
    requires BankPutOfferFixed(L, env, BankMsp, bank, offerArgs).Ok?
    requires CanEnqueue(L, SelectAppraiser, LinkOf(H.Linked(L, env.decodeLink(offerArgs[0]).value)))
    ensures
      var req := H.Linked(L, env.decodeLink(offerArgs[0]).value);
      H.BuyerSelectBankOffer(BankPutOfferFixed(L, env, BankMsp, bank, offerArgs).value, env, BuyerMsp, req.buyerHash,
                             [req.hash, offerArgs[1]]).Ok?
  {
    var link := env.decodeLink(offerArgs[0]).value;
    var req := H.Linked(L, link);
    var L1 := BankPutOfferFixed(L, env, BankMsp, bank, offerArgs).value;
    var req' := GetRequest(L1, req.buyerHash, req.hash).value;
    assert req'.bankOffers[|req'.bankOffers| - 1].hash == offerArgs[1];
    assert H.HasBankOffer(req', offerArgs[1]);
  }

  /** With the corrected offer, a second bank can still make its offer. */
  lemma FixedOffersAccumulate(L: Ledger, env: Env, bank: string, offerArgs: seq<string>, bank2: string, args2: seq<string>)
    requires BankPutOfferFixed(L, env, BankMsp, bank, offerArgs).Ok?
    requires BankPutOfferFixed(L, env, BankMsp, bank2, args2).Ok?
    requires env.decodeLink(args2[0]) == env.decodeLink(offerArgs[0])
    ensures BankPutOfferFixed(BankPutOfferFixed(L, env, BankMsp, bank, offerArgs).value, env, BankMsp, bank2, args2).Ok?
  {
    var link := env.decodeLink(offerArgs[0]).value;
    var req := H.Linked(L, link);
    var L1 := BankPutOfferFixed(L, env, BankMsp, bank, offerArgs).value;
    assert Readable(L1, link.userHash, link.requestHash);
    var req1 := H.Linked(L1, link);
    if link.userHash != req.buyerHash {
      assert Lookup(L1.requests, link.userHash) == Lookup(L.requests, link.userHash);
      assert req1 == req;
    } else {
      assert req1 == req.(status := StatusBankOfferInstalled, bankOffers := req1.bankOffers);
    }
    assert CanStore(L1, req1.buyerHash);
  }
}
