/** The twelve invocations of the lending chaincode (lines 328-1617).

    Each handler takes the ledger at the start of the invocation, the
    environment, the caller's MSP and identity, and the argument strings, and
    returns the ledger after the invocation or the reason it failed; a failed
    invocation writes nothing. Reads always see the starting ledger `L`
    (GetState does not observe this invocation's own PutState), and the writes
    pile up in the order the Go code issues them, a later write to the same
    key replacing an earlier one. Where the Go code ignores a helper's error,
    the helper's writes are kept when it succeeds and skipped when it fails. */
module LendingHandlers {
  import opened Wrappers
  import opened Decimal
  import opened LendingTypes
  import opened RequestQueues
  import opened RequestStore
  import opened PropertyStore
  import opened MoneyLedger
  import opened LendingRules
  import Sequences

  /** addOrUpdateRequest whose error the caller drops: the write happens
      when it can and nothing happens otherwise. */
  lemma PutRequestOrKeep(L: Ledger, r: Request)
    requires r.status in Statuses
    ensures RequestsEvolve(L, PutRequest(L, L, r).GetOr(L))
    ensures CanStore(L, r.buyerHash) ==> GetRequest(PutRequest(L, L, r).GetOr(L), r.buyerHash, r.hash) == Ok(r)
    ensures !CanStore(L, r.buyerHash) ==> PutRequest(L, L, r).GetOr(L) == L
  {
    if CanStore(L, r.buyerHash) {
      PutRequestEvolves(L, L, r);
    }
  }

  /** A request write whose error propagates, after which the request's
      link moves from queue `from` to queue `to`, both steps propagating
      their errors too. */
  function StoreAndMove(L: Ledger, P: Ledger, req: Request, from: string, to: string, link: RequestLink): (r: Result<Ledger>)
    requires req.status in Statuses && from != to && link.requestHash == req.hash
    requires P.requests == L.requests
    ensures r.Ok? <==> CanStore(L, req.buyerHash) && Queued(L, from, req.hash) && CanEnqueue(L, to, link)
    ensures r.Ok? ==>
      && GetRequest(r.value, req.buyerHash, req.hash) == Ok(req)
      && QueueOf(r.value, from) == SkipRemove(QueueOf(L, from), req.hash)
      && QueueOf(r.value, to) == QueueOf(L, to) + [link]
      && r.value.properties == P.properties && r.value.money == P.money
      && RequestsEvolve(L, r.value)
  {
    var L1 :- PutRequest(L, P, req);
    PutRequestEvolves(L, P, req);
    Move(L, L1, from, to, link)
  }

  /** A link leaves queue `from` and joins the end of queue `to`, both read
      at the start, the writes landing on top of `P`. */
  function Move(L: Ledger, P: Ledger, from: string, to: string, link: RequestLink): (r: Result<Ledger>)
    requires from != to
    ensures r.Ok? <==> Queued(L, from, link.requestHash) && CanEnqueue(L, to, link)
    ensures r.Ok? ==>
      && QueueOf(r.value, from) == SkipRemove(QueueOf(L, from), link.requestHash)
      && QueueOf(r.value, to) == QueueOf(L, to) + [link]
      && r.value.requests == P.requests && r.value.properties == P.properties && r.value.money == P.money
  {
    var L1 :- Dequeue(L, P, from, link);
    Enqueue(L, L1, to, link)
  }

  /** A request write whose error is ignored, after which the request's link
      moves from queue `from` to queue `to`, both steps propagating. */
  function KeepAndMove(L: Ledger, req: Request, from: string, to: string): (r: Result<Ledger>)
    requires req.status in Statuses && from != to
    ensures r.Ok? <==> Queued(L, from, req.hash) && CanEnqueue(L, to, LinkOf(req))
    ensures r.Ok? ==>
      && (CanStore(L, req.buyerHash) ==> GetRequest(r.value, req.buyerHash, req.hash) == Ok(req))
      && (!CanStore(L, req.buyerHash) ==> r.value.requests == L.requests)
      && QueueOf(r.value, from) == SkipRemove(QueueOf(L, from), req.hash)
      && QueueOf(r.value, to) == QueueOf(L, to) + [LinkOf(req)]
      && r.value.properties == L.properties && r.value.money == L.money
      && RequestsEvolve(L, r.value)
  {
    PutRequestOrKeep(L, req);
    Move(L, PutRequest(L, L, req).GetOr(L), from, to, LinkOf(req))
  }

  // ---------------------------------------------------------------- seller

  /** advertise (lines 328-469): the seller's house is appended to the
      seller's own list and put on the market. */
  function Advertise(L: Ledger, env: Env, msp: string, id: string, args: seq<string>): (r: Result<Ledger>)
    ensures |args| != 1 ==> r == Err(WrongArgumentCount)
    ensures |args| == 1 && |args[0]| == 0 ==> r == Err(EmptyArgument)
    ensures |args| == 1 && |args[0]| > 0 && msp != SellerMsp ==> r == Err(Unauthorized)
    ensures r.Ok? <==>
      && |args| == 1 && |args[0]| > 0 && msp == SellerMsp
      && env.decodeProperty(args[0]).Some?
      && ListReadable(L, id)
      && Listable(L, env.decodeProperty(args[0]).value.hash)
    ensures r.Ok? ==>
      var p := env.decodeProperty(args[0]).value.(sellerHash := id);
      && ListOf(r.value, PropertiesForSale) == ListOf(L, PropertiesForSale) + [p]
      && (id != PropertiesForSale ==> ListOf(r.value, id) == ListOf(L, id) + [p])
      && (forall k | k != id && k != PropertiesForSale :: Lookup(r.value.properties, k) == Lookup(L.properties, k))
      && r.value.requests == L.requests && r.value.queues == L.queues && r.value.money == L.money
  {
    if |args| != 1 then Err(WrongArgumentCount) else
    :- Need(|args[0]| > 0, EmptyArgument);
    var identity :- GetIdentity(SellerMsp, msp, id);
    var decoded :- OrMalformed(env.decodeProperty(args[0]));
    var p := decoded.(sellerHash := identity);
    var owned :- AppendOwned(Lookup(L.properties, identity), p);
    var forSale :- AddForSale(Lookup(L.properties, PropertiesForSale), p);
    Ok(L.(properties := L.properties[identity := Decoded(owned)][PropertiesForSale := Decoded(forSale)]))
  }

  // ----------------------------------------------------------------- buyer

  /** buy (lines 1340-1426): the buyer files a loan request for a house on
      the market; the request is stored as initialized, queued for a credit
      score (that step's failure is ignored), and the house leaves the market. */
  function Buy(L: Ledger, env: Env, msp: string, id: string, args: seq<string>): (r: Result<Ledger>)
    ensures |args| != 1 ==> r == Err(WrongArgumentCount)
    ensures |args| == 1 && |args[0]| == 0 ==> r == Err(EmptyArgument)
    ensures |args| == 1 && |args[0]| > 0 && msp != BuyerMsp ==> r == Err(Unauthorized)
    ensures r.Ok? <==>
      && |args| == 1 && |args[0]| > 0 && msp == BuyerMsp
      && env.decodeRequest(args[0]).Some?
      && CanStore(L, id)
      && ForSaleBy(L, env.decodeRequest(args[0]).value.propertyHash, env.decodeRequest(args[0]).value.sellerHash)
    ensures r.Ok? ==>
      var req := env.decodeRequest(args[0]).value.(status := StatusInitialized, buyerHash := id);
      var sale := ListOf(L, PropertiesForSale);
      && GetRequest(r.value, id, req.hash) == Ok(req)
      && LastSaleIndex(sale, req.propertyHash, req.sellerHash).Some?
      && ListOf(r.value, PropertiesForSale) == RemoveAt(sale, LastSaleIndex(sale, req.propertyHash, req.sellerHash).value)
      && (CanEnqueue(L, CreditRankOpenRequests, LinkOf(req)) ==>
            QueueOf(r.value, CreditRankOpenRequests) == QueueOf(L, CreditRankOpenRequests) + [LinkOf(req)])
      && (!CanEnqueue(L, CreditRankOpenRequests, LinkOf(req)) ==> r.value.queues == L.queues)
      && (forall k | k != PropertiesForSale :: Lookup(r.value.properties, k) == Lookup(L.properties, k))
      && r.value.money == L.money
      && RequestsEvolve(L, r.value)
  {
    if |args| != 1 then Err(WrongArgumentCount) else
    :- Need(|args[0]| > 0, EmptyArgument);
    var identity :- GetIdentity(BuyerMsp, msp, id);
    var decoded :- OrMalformed(env.decodeRequest(args[0]));
    FileRequest(L, decoded.(status := StatusInitialized, buyerHash := identity))
  }

  /** buy's writes (lines 1377-1423): the request is stored, queued for a
      credit score when that can be done, and its house leaves the market. */
  function FileRequest(L: Ledger, req: Request): (r: Result<Ledger>)
    requires req.status in Statuses
    ensures r.Ok? <==> CanStore(L, req.buyerHash) && ForSaleBy(L, req.propertyHash, req.sellerHash)
    ensures r.Ok? ==>
      var sale := ListOf(L, PropertiesForSale);
      && GetRequest(r.value, req.buyerHash, req.hash) == Ok(req)
      && LastSaleIndex(sale, req.propertyHash, req.sellerHash).Some?
      && ListOf(r.value, PropertiesForSale) == RemoveAt(sale, LastSaleIndex(sale, req.propertyHash, req.sellerHash).value)
      && (CanEnqueue(L, CreditRankOpenRequests, LinkOf(req)) ==>
            QueueOf(r.value, CreditRankOpenRequests) == QueueOf(L, CreditRankOpenRequests) + [LinkOf(req)])
      && (!CanEnqueue(L, CreditRankOpenRequests, LinkOf(req)) ==> r.value.queues == L.queues)
      && (forall k | k != PropertiesForSale :: Lookup(r.value.properties, k) == Lookup(L.properties, k))
      && r.value.money == L.money
      && RequestsEvolve(L, r.value)
  {
    var L1 :- PutRequest(L, L, req);
    PutRequestEvolves(L, L, req);
    var L2 := Enqueue(L, L1, CreditRankOpenRequests, LinkOf(req)).GetOr(L1);
    Delist(L, L2, req)
  }

  /** buy's removal of the house from properties4sale, written on top of `P`. */
  function Delist(L: Ledger, P: Ledger, req: Request): (r: Result<Ledger>)
    requires P.properties == L.properties
    ensures r.Ok? <==> ForSaleBy(L, req.propertyHash, req.sellerHash)
    ensures r.Ok? ==>
      var sale := ListOf(L, PropertiesForSale);
      && LastSaleIndex(sale, req.propertyHash, req.sellerHash).Some?
      && ListOf(r.value, PropertiesForSale) == RemoveAt(sale, LastSaleIndex(sale, req.propertyHash, req.sellerHash).value)
      && (forall k | k != PropertiesForSale :: Lookup(r.value.properties, k) == Lookup(L.properties, k))
      && r.value.requests == P.requests && r.value.queues == P.queues && r.value.money == P.money
  {
    var forSale :- RemoveForSale(Lookup(L.properties, PropertiesForSale), req.propertyHash, req.sellerHash);
    Ok(P.(properties := P.properties[PropertiesForSale := Decoded(forSale)]))
  }

  // ------------------------------------------------------ credit agency

  /** calcCreditScore (lines 1197-1287): the agency grades the request
      (an ungradable salary gets the empty grade), moves it from the credit
      queue to the queue of requests open for bank offers. */
  function CalcCreditScore(L: Ledger, env: Env, msp: string, id: string, args: seq<string>): (r: Result<Ledger>)
    ensures |args| != 1 ==> r == Err(WrongArgumentCount)
    ensures |args| == 1 && |args[0]| == 0 ==> r == Err(EmptyArgument)
    ensures |args| == 1 && |args[0]| > 0 && msp != CreditRatingMsp ==> r == Err(Unauthorized)
    ensures r.Ok? ==>
      && |args| == 1 && msp == CreditRatingMsp
      && env.decodeLink(args[0]).Some?
      && Readable(L, env.decodeLink(args[0]).value.userHash, env.decodeLink(args[0]).value.requestHash)
    ensures r.Ok? ==>
      var link := env.decodeLink(args[0]).value;
      var req := GetRequest(L, link.userHash, link.requestHash).value;
      var req' := req.(creditScore := CreditRankScore(req.salary).GetOr(""), creditScoreIdentity := id,
                       status := StatusCreditScoreInstalled);
      && Queued(L, CreditRankOpenRequests, link.requestHash)
      && CanEnqueue(L, Open4BankOffers, LinkOf(req))
      && GetRequest(r.value, req.buyerHash, link.requestHash) == Ok(req')
      && QueueOf(r.value, CreditRankOpenRequests) == SkipRemove(QueueOf(L, CreditRankOpenRequests), link.requestHash)
      && QueueOf(r.value, Open4BankOffers) == QueueOf(L, Open4BankOffers) + [LinkOf(req)]
      && r.value.properties == L.properties && r.value.money == L.money
      && RequestsEvolve(L, r.value)
    ensures
      && |args| == 1 && |args[0]| > 0 && msp == CreditRatingMsp
      && env.decodeLink(args[0]).Some?
      && Readable(L, env.decodeLink(args[0]).value.userHash, env.decodeLink(args[0]).value.requestHash)
      && CanStore(L, GetRequest(L, env.decodeLink(args[0]).value.userHash, env.decodeLink(args[0]).value.requestHash).value.buyerHash)
      && Queued(L, CreditRankOpenRequests, env.decodeLink(args[0]).value.requestHash)
      && CanEnqueue(L, Open4BankOffers, LinkOf(GetRequest(L, env.decodeLink(args[0]).value.userHash, env.decodeLink(args[0]).value.requestHash).value))
      ==> r.Ok?
  {
    if |args| != 1 then Err(WrongArgumentCount) else
    :- Need(|args[0]| > 0, EmptyArgument);
    var identity :- GetIdentity(CreditRatingMsp, msp, id);
    var link :- OrMalformed(env.decodeLink(args[0]));
    var request :- GetRequest(L, link.userHash, link.requestHash);
    var req := request.(creditScore := CreditRankScore(request.salary).GetOr(""), creditScoreIdentity := identity,
                        status := StatusCreditScoreInstalled);
    StoreAndMove(L, L, req, CreditRankOpenRequests, Open4BankOffers, LinkOf(req))
  }

  /** The request a link points at, read from the starting ledger. */
  function Linked(L: Ledger, link: RequestLink): (req: Request)
    requires Readable(L, link.userHash, link.requestHash)
    ensures req.hash == link.requestHash
  {
    GetRequest(L, link.userHash, link.requestHash).value
  }

  // ------------------------------------------------------------------ bank

  /** bankPutOffer (lines 867-952): a bank adds an offer, with the monthly
      payment calcPmt computes from the request's duration and loan amount,
      and takes the request off the queue of requests open for offers. */
  function BankPutOffer(L: Ledger, env: Env, msp: string, id: string, args: seq<string>): (r: Result<Ledger>)
    ensures |args| != 3 ==> r == Err(WrongArgumentCount)
    ensures |args| == 3 && msp != BankMsp ==> r == Err(Unauthorized)
    ensures |args| == 3 && msp == BankMsp && (|args[0]| == 0 || |args[1]| == 0 || |args[2]| == 0) ==> r == Err(EmptyArgument)
    ensures r.Ok? ==>
      && |args| == 3 && msp == BankMsp && |args[1]| > 0
      && env.decodeLink(args[0]).Some? && env.parseFloat(args[2]).Some?
      && Readable(L, env.decodeLink(args[0]).value.userHash, env.decodeLink(args[0]).value.requestHash)
    ensures r.Ok? ==>
      var link := env.decodeLink(args[0]).value;
      var interest := env.parseFloat(args[2]).value;
      var req := Linked(L, link);
      var offer := BankOffer(args[1], id, interest, env.payment(interest, req.duration, req.loanAmount));
      && PaymentInputs(interest, req.duration, req.loanAmount).Pass?
      && Queued(L, Open4BankOffers, link.requestHash)
      && GetRequest(r.value, req.buyerHash, req.hash) == Ok(req.(status := StatusBankOfferInstalled, bankOffers := req.bankOffers + [offer]))
      && QueueOf(r.value, Open4BankOffers) == SkipRemove(QueueOf(L, Open4BankOffers), link.requestHash)
      && r.value.properties == L.properties && r.value.money == L.money
      && RequestsEvolve(L, r.value)
    ensures
      && |args| == 3 && msp == BankMsp && |args[0]| > 0 && |args[1]| > 0 && |args[2]| > 0
      && env.decodeLink(args[0]).Some? && env.parseFloat(args[2]).Some?
      && Readable(L, env.decodeLink(args[0]).value.userHash, env.decodeLink(args[0]).value.requestHash)
      && PaymentInputs(env.parseFloat(args[2]).value, Linked(L, env.decodeLink(args[0]).value).duration, Linked(L, env.decodeLink(args[0]).value).loanAmount).Pass?
      && CanStore(L, Linked(L, env.decodeLink(args[0]).value).buyerHash)
      && Queued(L, Open4BankOffers, env.decodeLink(args[0]).value.requestHash)
      ==> r.Ok?
  {
    if |args| != 3 then Err(WrongArgumentCount) else
    var identity :- GetIdentity(BankMsp, msp, id);
    :- Need(|args[0]| > 0, EmptyArgument);
    :- Need(|args[1]| > 0, EmptyArgument);
    :- Need(|args[2]| > 0, EmptyArgument);
    var link :- OrMalformed(env.decodeLink(args[0]));
    var interest :- OrMalformed(env.parseFloat(args[2]));
    var request :- GetRequest(L, link.userHash, link.requestHash);
    var payment :- CalcPmt(env, interest, request.duration, request.loanAmount);
    var req := request.(status := StatusBankOfferInstalled,
                        bankOffers := request.bankOffers + [BankOffer(args[1], identity, interest, payment)]);
    var L1 :- PutRequest(L, L, req);
    PutRequestEvolves(L, L, req);
    Dequeue(L, L1, Open4BankOffers, link)
  }

  // ----------------------------------------------------------------- buyer

  /** Some bank offer of `req` has hash `h`. */
  predicate HasBankOffer(req: Request, h: string) {
    exists i | 0 <= i < |req.bankOffers| :: req.bankOffers[i].hash == h
  }

  /** Some insurance offer of `req` has hash `h`. */
  predicate HasInsuranceOffer(req: Request, h: string) {
    exists i | 0 <= i < |req.insuranceOffers| :: req.insuranceOffers[i].hash == h
  }

  /** buyerSelectBankOffer (lines 1453-1516): the buyer picks one of the
      offers; the request moves from the open-for-offers queue to the queue
      of requests waiting for an appraiser. The request write's error is
      ignored. */
  function BuyerSelectBankOffer(L: Ledger, env: Env, msp: string, id: string, args: seq<string>): (r: Result<Ledger>)
    ensures msp != BuyerMsp ==> r == Err(Unauthorized)
    ensures msp == BuyerMsp && |args| != 2 ==> r == Err(WrongArgumentCount)
    ensures r.Ok? <==>
      && msp == BuyerMsp && |args| == 2
      && Readable(L, id, args[0])
      && HasBankOffer(GetRequest(L, id, args[0]).value, args[1])
      && Queued(L, Open4BankOffers, args[0])
      && CanEnqueue(L, SelectAppraiser, LinkOf(GetRequest(L, id, args[0]).value))
    ensures r.Ok? ==>
      var req := GetRequest(L, id, args[0]).value;
      var req' := req.(status := StatusBuyerSelectedBankOffer, selectedBankOfferHash := args[1]);
      && (CanStore(L, req.buyerHash) ==> GetRequest(r.value, req.buyerHash, args[0]) == Ok(req'))
      && (!CanStore(L, req.buyerHash) ==> r.value.requests == L.requests)
      && QueueOf(r.value, Open4BankOffers) == SkipRemove(QueueOf(L, Open4BankOffers), args[0])
      && QueueOf(r.value, SelectAppraiser) == QueueOf(L, SelectAppraiser) + [LinkOf(req)]
      && r.value.properties == L.properties && r.value.money == L.money
      && RequestsEvolve(L, r.value)
  {
    var identity :- GetIdentity(BuyerMsp, msp, id);
    :- Need(|args| == 2, WrongArgumentCount);
    var request :- GetRequest(L, identity, args[0]);
    :- Need(|request.bankOffers| >= 1, NotFound);
    :- Need(HasBankOffer(request, args[1]), NotFound);
    KeepAndMove(L, request.(status := StatusBuyerSelectedBankOffer, selectedBankOfferHash := args[1]),
                Open4BankOffers, SelectAppraiser)
  }

  /** buyerSelectAppraiser (lines 1518-1565): the buyer names an appraiser;
      the request moves to that appraiser's own queue. The request write's
      error is ignored, and the appraiser is not checked. */
  function BuyerSelectAppraiser(L: Ledger, env: Env, msp: string, id: string, args: seq<string>): (r: Result<Ledger>)
    ensures |args| != 2 ==> r == Err(WrongArgumentCount)
    ensures |args| == 2 && msp != BuyerMsp ==> r == Err(Unauthorized)
    ensures r.Ok? <==>
      && |args| == 2 && msp == BuyerMsp
      && Readable(L, id, args[0])
      && Queued(L, SelectAppraiser, args[0])
      && CanEnqueue(L, AppraiserQueue(args[1]), LinkOf(GetRequest(L, id, args[0]).value))
    ensures r.Ok? ==>
      var req := GetRequest(L, id, args[0]).value;
      var req' := req.(appraiserHash := args[1], status := StatusAppraiserChosen);
      && (CanStore(L, req.buyerHash) ==> GetRequest(r.value, req.buyerHash, args[0]) == Ok(req'))
      && (!CanStore(L, req.buyerHash) ==> r.value.requests == L.requests)
      && QueueOf(r.value, SelectAppraiser) == SkipRemove(QueueOf(L, SelectAppraiser), args[0])
      && QueueOf(r.value, AppraiserQueue(args[1])) == QueueOf(L, AppraiserQueue(args[1])) + [LinkOf(req)]
      && r.value.properties == L.properties && r.value.money == L.money
      && RequestsEvolve(L, r.value)
  {
    if |args| != 2 then Err(WrongArgumentCount) else
    var identity :- GetIdentity(BuyerMsp, msp, id);
    var request :- GetRequest(L, identity, args[0]);
    KeepAndMove(L, request.(appraiserHash := args[1], status := StatusAppraiserChosen),
                SelectAppraiser, AppraiserQueue(args[1]))
  }

  // ------------------------------------------------------------- appraiser

  /** appraiserProvideAmount (lines 626-690): the appraiser the buyer chose
      reports the house's value; the request moves from the appraiser's queue
      to the queue open for insurance offers. The request write's error is
      ignored. */
  function AppraiserProvideAmount(L: Ledger, env: Env, msp: string, id: string, args: seq<string>): (r: Result<Ledger>)
    ensures |args| != 3 ==> r == Err(WrongArgumentCount)
    ensures |args| == 3 && msp != AppraiserMsp ==> r == Err(Unauthorized)
    ensures |args| == 3 && msp == AppraiserMsp && Atoi(args[2]).None? ==> r == Err(Malformed)
    ensures (|args| == 3 && msp == AppraiserMsp && Atoi(args[2]).Some? && Readable(L, args[0], args[1]) &&
             GetRequest(L, args[0], args[1]).value.appraiserHash != id) ==> r == Err(Forbidden)
    ensures r.Ok? <==>
      && |args| == 3 && msp == AppraiserMsp
      && Atoi(args[2]).Some?
      && Readable(L, args[0], args[1])
      && GetRequest(L, args[0], args[1]).value.appraiserHash == id
      && Queued(L, AppraiserQueue(id), args[1])
      && CanEnqueue(L, Open4InsuranceOffers, LinkOf(GetRequest(L, args[0], args[1]).value))
    ensures r.Ok? ==>
      var req := GetRequest(L, args[0], args[1]).value;
      var req' := req.(status := StatusAppraiserProvidedAmount, appraiserAmount := Atoi(args[2]).value);
      && (CanStore(L, req.buyerHash) ==> GetRequest(r.value, req.buyerHash, args[1]) == Ok(req'))
      && (!CanStore(L, req.buyerHash) ==> r.value.requests == L.requests)
      && QueueOf(r.value, AppraiserQueue(id)) == SkipRemove(QueueOf(L, AppraiserQueue(id)), args[1])
      && QueueOf(r.value, Open4InsuranceOffers) == QueueOf(L, Open4InsuranceOffers) + [LinkOf(req)]
      && r.value.properties == L.properties && r.value.money == L.money
      && RequestsEvolve(L, r.value)
  {
    if |args| != 3 then Err(WrongArgumentCount) else
    var identity :- GetIdentity(AppraiserMsp, msp, id);
    var amount :- OrMalformed(Atoi(args[2]));
    var request :- GetRequest(L, args[0], args[1]);
    :- Need(request.appraiserHash == identity, Forbidden);
    KeepAndMove(L, request.(status := StatusAppraiserProvidedAmount, appraiserAmount := amount),
                AppraiserQueue(identity), Open4InsuranceOffers)
  }

  // ------------------------------------------------------------- insurance

  /** insurancePutOffer (lines 744-813): an insurer adds an offer. Queue
      membership is not required: the removal from the queue open for
      insurance offers happens when it can and its error is ignored. */
  function InsurancePutOffer(L: Ledger, env: Env, msp: string, id: string, args: seq<string>): (r: Result<Ledger>)
    ensures |args| != 4 ==> r == Err(WrongArgumentCount)
    ensures |args| == 4 && (|args[0]| == 0 || |args[1]| == 0 || |args[2]| == 0) ==> r == Err(EmptyArgument)
    ensures |args| == 4 && |args[0]| > 0 && |args[1]| > 0 && |args[2]| > 0 && msp != InsuranceMsp ==> r == Err(Unauthorized)
    ensures r.Ok? <==>
      && |args| == 4 && |args[0]| > 0 && |args[1]| > 0 && |args[2]| > 0 && msp == InsuranceMsp
      && Readable(L, args[0], args[1])
      && env.parseFloat(args[2]).Some?
      && CanStore(L, GetRequest(L, args[0], args[1]).value.buyerHash)
    ensures r.Ok? ==>
      var req := GetRequest(L, args[0], args[1]).value;
      var offer := InsuranceOffer(args[3], id, env.parseFloat(args[2]).value);
      && GetRequest(r.value, req.buyerHash, args[1]) == Ok(req.(status := StatusInsuranceOfferProvided, insuranceOffers := req.insuranceOffers + [offer]))
      && (Queued(L, Open4InsuranceOffers, args[1]) ==>
            QueueOf(r.value, Open4InsuranceOffers) == SkipRemove(QueueOf(L, Open4InsuranceOffers), args[1]))
      && (!Queued(L, Open4InsuranceOffers, args[1]) ==> r.value.queues == L.queues)
      && r.value.properties == L.properties && r.value.money == L.money
      && RequestsEvolve(L, r.value)
  {
    if |args| != 4 then Err(WrongArgumentCount) else
    :- Need(|args[0]| > 0, EmptyArgument);
    :- Need(|args[1]| > 0, EmptyArgument);
    :- Need(|args[2]| > 0, EmptyArgument);
    var identity :- GetIdentity(InsuranceMsp, msp, id);
    var request :- GetRequest(L, args[0], args[1]);
    var amount :- OrMalformed(env.parseFloat(args[2]));
    var req := request.(status := StatusInsuranceOfferProvided,
                        insuranceOffers := request.insuranceOffers + [InsuranceOffer(args[3], identity, amount)]);
    var L1 :- PutRequest(L, L, req);
    PutRequestEvolves(L, L, req);
    Ok(Dequeue(L, L1, Open4InsuranceOffers, LinkOf(req)).GetOr(L1))
  }

  /** buyerSelectInsuranceOffer (lines 1567-1617): the buyer picks an
      insurance offer; the request is queued for the government, and that
      step's failure is ignored. Nothing is taken off a queue. */
  function BuyerSelectInsuranceOffer(L: Ledger, env: Env, msp: string, id: string, args: seq<string>): (r: Result<Ledger>)
    ensures |args| != 2 ==> r == Err(WrongArgumentCount)
    ensures |args| == 2 && msp != BuyerMsp ==> r == Err(Unauthorized)
    ensures r.Ok? <==>
      && |args| == 2 && msp == BuyerMsp
      && Readable(L, id, args[0])
      && HasInsuranceOffer(GetRequest(L, id, args[0]).value, args[1])
      && CanStore(L, GetRequest(L, id, args[0]).value.buyerHash)
    ensures r.Ok? ==>
      var req := GetRequest(L, id, args[0]).value;
      && GetRequest(r.value, req.buyerHash, args[0]) == Ok(req.(status := StatusInsuranceOfferSelected, selectedInsuranceOfferHash := args[1]))
      && (CanEnqueue(L, Pending4Government, LinkOf(req)) ==>
            QueueOf(r.value, Pending4Government) == QueueOf(L, Pending4Government) + [LinkOf(req)])
      && (!CanEnqueue(L, Pending4Government, LinkOf(req)) ==> r.value.queues == L.queues)
      && r.value.properties == L.properties && r.value.money == L.money
      && RequestsEvolve(L, r.value)
  {
    if |args| != 2 then Err(WrongArgumentCount) else
    var identity :- GetIdentity(BuyerMsp, msp, id);
    var request :- GetRequest(L, identity, args[0]);
    :- Need(HasInsuranceOffer(request, args[1]), NotFound);
    var req := request.(status := StatusInsuranceOfferSelected, selectedInsuranceOfferHash := args[1]);
    var L1 :- PutRequest(L, L, req);
    PutRequestEvolves(L, L, req);
    Ok(Enqueue(L, L1, Pending4Government, LinkOf(req)).GetOr(L1))
  }

  // ------------------------------------------------------------ government

  /** The government's report from the literal "true" arguments; the house
      owner flag comes before the lien flag in the argument list. */
  function GovernmentReport(args: seq<string>): (g: GovernmentResults)
    requires |args| == 5
    ensures g.checkHouseOwner <==> args[2] == "true"
    ensures g.checkLien <==> args[3] == "true"
    ensures g.checkWarningShot <==> args[4] == "true"
  {
    GovernmentResults(checkLien := args[3] == "true", checkHouseOwner := args[2] == "true", checkWarningShot := args[4] == "true")
  }

  /** governmentPutData (lines 472-529): the government records its checks;
      the request is queued for bank approval. Queue membership is not
      required: the removal from the government's queue happens when it can
      and its result is discarded. */
  function GovernmentPutData(L: Ledger, env: Env, msp: string, id: string, args: seq<string>): (r: Result<Ledger>)
    ensures |args| != 5 ==> r == Err(WrongArgumentCount)
    ensures |args| == 5 && msp != GovernmentMsp ==> r == Err(Unauthorized)
    ensures r.Ok? <==>
      && |args| == 5 && msp == GovernmentMsp
      && Readable(L, args[0], args[1])
      && CanStore(L, GetRequest(L, args[0], args[1]).value.buyerHash)
      && CanEnqueue(L, Pending4BankApproval, LinkOf(GetRequest(L, args[0], args[1]).value))
    ensures r.Ok? ==>
      var req := GetRequest(L, args[0], args[1]).value;
      && GetRequest(r.value, req.buyerHash, args[1]) ==
           Ok(req.(governmentResults := Some(GovernmentReport(args)), status := StatusGovernmentProvided))
      && QueueOf(r.value, Pending4BankApproval) == QueueOf(L, Pending4BankApproval) + [LinkOf(req)]
      && (Queued(L, Pending4Government, args[1]) ==>
            QueueOf(r.value, Pending4Government) == SkipRemove(QueueOf(L, Pending4Government), args[1]))
      && (!Queued(L, Pending4Government, args[1]) ==> QueueOf(r.value, Pending4Government) == QueueOf(L, Pending4Government))
      && r.value.properties == L.properties && r.value.money == L.money
      && RequestsEvolve(L, r.value)
  {
    if |args| != 5 then Err(WrongArgumentCount) else
    var _ :- GetIdentity(GovernmentMsp, msp, id);
    var request :- GetRequest(L, args[0], args[1]);
    var req := request.(governmentResults := Some(GovernmentReport(args)), status := StatusGovernmentProvided);
    var L1 :- PutRequest(L, L, req);
    PutRequestEvolves(L, L, req);
    var L2 := Dequeue(L, L1, Pending4Government, LinkOf(req)).GetOr(L1);
    Enqueue(L, L2, Pending4BankApproval, LinkOf(req))
  }

  // ------------------------------------------------------------------ bank

  /** bankApprove (lines 954-1043): a declined request records the reason
      and stays where it is; an approved one gets its loan amount in escrow
      and moves from the approval queue to the execution queue. */
  function BankApprove(L: Ledger, env: Env, msp: string, id: string, args: seq<string>): (r: Result<Ledger>)
    ensures |args| != 1 ==> r == Err(WrongArgumentCount)
    ensures |args| == 1 && msp != BankMsp ==> r == Err(Unauthorized)
    ensures r.Ok? ==>
      && |args| == 1 && msp == BankMsp
      && env.decodeLink(args[0]).Some?
      && Readable(L, env.decodeLink(args[0]).value.userHash, env.decodeLink(args[0]).value.requestHash)
      && ValidateBeforeApprove(Linked(L, env.decodeLink(args[0]).value), id).Ok?
      && CanStore(L, Linked(L, env.decodeLink(args[0]).value).buyerHash)
    ensures r.Ok? ==>
      var link := env.decodeLink(args[0]).value;
      var req := Linked(L, link);
      var reason := ValidateBeforeApprove(req, id).value;
      && r.value.properties == L.properties
      && RequestsEvolve(L, r.value)
      && (|reason| > 0 ==>
            && GetRequest(r.value, req.buyerHash, req.hash) == Ok(req.(status := StatusDeclinedByBank, declineInfo := reason))
            && r.value.queues == L.queues && r.value.money == L.money)
      && (|reason| == 0 ==>
            && GetRequest(r.value, req.buyerHash, req.hash) ==
                 Ok(req.(loanAmountLeftToRefund := req.loanAmount, status := StatusApprovedByBank))
            && GetMoney(r.value, EscrowAccount(req.hash)) == req.loanAmount
            && (forall a | a != EscrowAccount(req.hash) :: Lookup(r.value.money, a) == Lookup(L.money, a))
            && Queued(L, Pending4BankApproval, link.requestHash)
            && QueueOf(r.value, Pending4BankApproval) == SkipRemove(QueueOf(L, Pending4BankApproval), link.requestHash)
            && QueueOf(r.value, Pending4ChaincodeExecute) == QueueOf(L, Pending4ChaincodeExecute) + [link])
    ensures
      && |args| == 1 && msp == BankMsp
      && env.decodeLink(args[0]).Some?
      && Readable(L, env.decodeLink(args[0]).value.userHash, env.decodeLink(args[0]).value.requestHash)
      && ValidateBeforeApprove(Linked(L, env.decodeLink(args[0]).value), id).Ok?
      && CanStore(L, Linked(L, env.decodeLink(args[0]).value).buyerHash)
      && (ValidateBeforeApprove(Linked(L, env.decodeLink(args[0]).value), id).value == "" ==>
            && Queued(L, Pending4BankApproval, env.decodeLink(args[0]).value.requestHash)
            && CanEnqueue(L, Pending4ChaincodeExecute, env.decodeLink(args[0]).value))
      ==> r.Ok?
  {
    if |args| != 1 then Err(WrongArgumentCount) else
    var bank :- GetIdentity(BankMsp, msp, id);
    var link :- OrMalformed(env.decodeLink(args[0]));
    var request :- GetRequest(L, link.userHash, link.requestHash);
    var reason :- ValidateBeforeApprove(request, bank);
    if |reason| != 0 then Decline(L, request, reason) else Approve(L, request, link)
  }

  /** bankApprove's decline path (lines 1002-1014). */
  function Decline(L: Ledger, request: Request, reason: string): (r: Result<Ledger>)
    ensures r.Ok? <==> CanStore(L, request.buyerHash)
    ensures r.Ok? ==>
      && GetRequest(r.value, request.buyerHash, request.hash) == Ok(request.(status := StatusDeclinedByBank, declineInfo := reason))
      && r.value.properties == L.properties && r.value.queues == L.queues && r.value.money == L.money
      && RequestsEvolve(L, r.value)
  {
    var req := request.(status := StatusDeclinedByBank, declineInfo := reason);
    var L1 :- PutRequest(L, L, req);
    PutRequestEvolves(L, L, req);
    Ok(L1)
  }

  /** bankApprove's approval path (lines 1016-1039): the escrow balance is
      set to the loan amount, whatever it held before. */
  function Approve(L: Ledger, request: Request, link: RequestLink): (r: Result<Ledger>)
    requires link.requestHash == request.hash
    ensures r.Ok? <==>
      && CanStore(L, request.buyerHash)
      && Queued(L, Pending4BankApproval, link.requestHash)
      && CanEnqueue(L, Pending4ChaincodeExecute, link)
    ensures r.Ok? ==>
      && GetRequest(r.value, request.buyerHash, request.hash) ==
           Ok(request.(loanAmountLeftToRefund := request.loanAmount, status := StatusApprovedByBank))
      && GetMoney(r.value, EscrowAccount(request.hash)) == request.loanAmount
      && (forall a | a != EscrowAccount(request.hash) :: Lookup(r.value.money, a) == Lookup(L.money, a))
      && QueueOf(r.value, Pending4BankApproval) == SkipRemove(QueueOf(L, Pending4BankApproval), link.requestHash)
      && QueueOf(r.value, Pending4ChaincodeExecute) == QueueOf(L, Pending4ChaincodeExecute) + [link]
      && r.value.properties == L.properties
      && RequestsEvolve(L, r.value)
  {
    AtoiItoa(request.loanAmount);
    var L1 := L.(money := L.money[EscrowAccount(request.hash) := Itoa(request.loanAmount)]);
    var req := request.(loanAmountLeftToRefund := request.loanAmount, status := StatusApprovedByBank);
    StoreAndMove(L, L1, req, Pending4BankApproval, Pending4ChaincodeExecute, link)
  }

  /** The house `owner` holds with hash `h`: the first one in the list. */
  function OwnedHouse(L: Ledger, owner: string, h: string): (p: Property)
    requires Owns(L, owner, h)
    ensures p.hash == h
  {
    var xs := ListOf(L, owner);
    xs[Sequences.FirstMatch(xs, PropertyHash, h).value]
  }

  /** bankRunChaincode (lines 1045-1143): the bank that made the selected
      offer settles the sale: the house passes from the seller's list to the
      buyer's, the loan amount passes from the request's escrow to the
      seller, the request completes and leaves the execution queue. */
  function BankRunChaincode(L: Ledger, env: Env, msp: string, id: string, args: seq<string>): (r: Result<Ledger>)
    ensures |args| != 1 ==> r == Err(WrongArgumentCount)
    ensures |args| == 1 && msp != BankMsp ==> r == Err(Unauthorized)
    ensures r.Ok? ==>
      && |args| == 1 && msp == BankMsp
      && env.decodeLink(args[0]).Some?
      && Readable(L, env.decodeLink(args[0]).value.userHash, env.decodeLink(args[0]).value.requestHash)
    ensures r.Ok? ==>
      var link := env.decodeLink(args[0]).value;
      var req := Linked(L, link);
      var escrow := EscrowAccount(req.hash);
      && ValidateBankOwner(req, id).Pass?
      && Owns(L, req.sellerHash, req.propertyHash)
      && GetMoney(L, escrow) >= 0 && GetMoney(L, escrow) >= req.loanAmount
      && Queued(L, Pending4ChaincodeExecute, link.requestHash)
      && ListOf(r.value, req.buyerHash) == ListOf(L, req.buyerHash) + [OwnedHouse(L, req.sellerHash, req.propertyHash)]
      && (req.sellerHash != req.buyerHash ==>
            |ListOf(r.value, req.sellerHash)| == |ListOf(L, req.sellerHash)| - 1 &&
            multiset(ListOf(r.value, req.sellerHash)) + multiset{OwnedHouse(L, req.sellerHash, req.propertyHash)} == multiset(ListOf(L, req.sellerHash)))
      && (forall k | k != req.buyerHash && k != req.sellerHash :: Lookup(r.value.properties, k) == Lookup(L.properties, k))
      && GetMoney(r.value, req.sellerHash) == GetMoney(L, req.sellerHash) + req.loanAmount
      && (escrow != req.sellerHash ==> GetMoney(r.value, escrow) == GetMoney(L, escrow) - req.loanAmount)
      && GetRequest(r.value, req.buyerHash, req.hash) == Ok(req.(status := StatusCompleted))
      && QueueOf(r.value, Pending4ChaincodeExecute) == SkipRemove(QueueOf(L, Pending4ChaincodeExecute), link.requestHash)
      && RequestsEvolve(L, r.value)
    ensures
      && |args| == 1 && msp == BankMsp
      && env.decodeLink(args[0]).Some?
      && Readable(L, env.decodeLink(args[0]).value.userHash, env.decodeLink(args[0]).value.requestHash)
      && ValidateBankOwner(Linked(L, env.decodeLink(args[0]).value), id).Pass?
      && Owns(L, Linked(L, env.decodeLink(args[0]).value).sellerHash, Linked(L, env.decodeLink(args[0]).value).propertyHash)
      && ListReadable(L, Linked(L, env.decodeLink(args[0]).value).buyerHash)
      && GetMoney(L, EscrowAccount(env.decodeLink(args[0]).value.requestHash)) >= 0
      && GetMoney(L, EscrowAccount(env.decodeLink(args[0]).value.requestHash)) >= Linked(L, env.decodeLink(args[0]).value).loanAmount
      && CanStore(L, Linked(L, env.decodeLink(args[0]).value).buyerHash)
      && Queued(L, Pending4ChaincodeExecute, env.decodeLink(args[0]).value.requestHash)
      ==> r.Ok?
  {
    if |args| != 1 then Err(WrongArgumentCount) else
    var bank :- GetIdentity(BankMsp, msp, id);
    var link :- OrMalformed(env.decodeLink(args[0]));
    var request :- GetRequest(L, link.userHash, link.requestHash);
    :- ValidateBankOwner(request, bank);
    Settle(L, request, link)
  }

  /** bankRunChaincode's writes (lines 1079-1139) for a request whose
      selected offer belongs to the calling bank. */
  function Settle(L: Ledger, req: Request, link: RequestLink): (r: Result<Ledger>)
    requires link.requestHash == req.hash
    ensures r.Ok? <==>
      && Owns(L, req.sellerHash, req.propertyHash)
      && ListReadable(L, req.buyerHash)
      && GetMoney(L, EscrowAccount(req.hash)) >= 0 && GetMoney(L, EscrowAccount(req.hash)) >= req.loanAmount
      && CanStore(L, req.buyerHash)
      && Queued(L, Pending4ChaincodeExecute, req.hash)
    ensures r.Ok? ==>
      var escrow := EscrowAccount(req.hash);
      var house := OwnedHouse(L, req.sellerHash, req.propertyHash);
      && ListOf(r.value, req.buyerHash) == ListOf(L, req.buyerHash) + [house]
      && (req.sellerHash != req.buyerHash ==>
            |ListOf(r.value, req.sellerHash)| == |ListOf(L, req.sellerHash)| - 1 &&
            multiset(ListOf(r.value, req.sellerHash)) + multiset{house} == multiset(ListOf(L, req.sellerHash)))
      && (forall k | k != req.buyerHash && k != req.sellerHash :: Lookup(r.value.properties, k) == Lookup(L.properties, k))
      && GetMoney(r.value, req.sellerHash) == GetMoney(L, req.sellerHash) + req.loanAmount
      && (escrow != req.sellerHash ==> GetMoney(r.value, escrow) == GetMoney(L, escrow) - req.loanAmount)
      && GetRequest(r.value, req.buyerHash, req.hash) == Ok(req.(status := StatusCompleted))
      && QueueOf(r.value, Pending4ChaincodeExecute) == SkipRemove(QueueOf(L, Pending4ChaincodeExecute), req.hash)
      && RequestsEvolve(L, r.value)
  {
    var L1 :- TransferHouse(L, req);
    PayAndClose(L, L1, req, link)
  }

  /** bankRunChaincode's payment and bookkeeping (lines 1113-1139), on top
      of the house transfer already written into `P`. */
  function PayAndClose(L: Ledger, P: Ledger, req: Request, link: RequestLink): (r: Result<Ledger>)
    requires link.requestHash == req.hash
    requires P.requests == L.requests && P.queues == L.queues && P.money == L.money
    ensures r.Ok? <==>
      && GetMoney(L, EscrowAccount(req.hash)) >= 0 && GetMoney(L, EscrowAccount(req.hash)) >= req.loanAmount
      && CanStore(L, req.buyerHash)
      && Queued(L, Pending4ChaincodeExecute, req.hash)
    ensures r.Ok? ==>
      var escrow := EscrowAccount(req.hash);
      && r.value.properties == P.properties
      && GetMoney(r.value, req.sellerHash) == GetMoney(L, req.sellerHash) + req.loanAmount
      && (escrow != req.sellerHash ==> GetMoney(r.value, escrow) == GetMoney(L, escrow) - req.loanAmount)
      && GetRequest(r.value, req.buyerHash, req.hash) == Ok(req.(status := StatusCompleted))
      && QueueOf(r.value, Pending4ChaincodeExecute) == SkipRemove(QueueOf(L, Pending4ChaincodeExecute), req.hash)
      && RequestsEvolve(L, r.value)
  {
    var L1 :- MoveMoney(L, P, EscrowAccount(req.hash), req.sellerHash, req.loanAmount);
    Close(L, L1, req, link)
  }

  /** bankRunChaincode's bookkeeping (lines 1127-1139): the request is
      stored as completed and leaves the execution queue; balances and house
      lists already written in `P` stay. */
  function Close(L: Ledger, P: Ledger, req: Request, link: RequestLink): (r: Result<Ledger>)
    requires link.requestHash == req.hash
    requires P.requests == L.requests && P.queues == L.queues
    ensures r.Ok? <==> CanStore(L, req.buyerHash) && Queued(L, Pending4ChaincodeExecute, req.hash)
    ensures r.Ok? ==>
      && r.value.properties == P.properties && r.value.money == P.money
      && GetRequest(r.value, req.buyerHash, req.hash) == Ok(req.(status := StatusCompleted))
      && QueueOf(r.value, Pending4ChaincodeExecute) == SkipRemove(QueueOf(L, Pending4ChaincodeExecute), req.hash)
      && RequestsEvolve(L, r.value)
  {
    var done := req.(status := StatusCompleted);
    var L1 :- PutRequest(L, P, done);
    PutRequestEvolves(L, P, done);
    Dequeue(L, L1, Pending4ChaincodeExecute, link)
  }

  /** bankRunChaincode's house transfer (lines 1079-1111): the house leaves
      the seller's list and is appended to the buyer's list as the buyer's
      list read at the start; when buyer and seller coincide the second write
      wins and the house stays, now listed twice. */
  function TransferHouse(L: Ledger, req: Request): (r: Result<Ledger>)
    ensures r.Ok? <==> Owns(L, req.sellerHash, req.propertyHash) && ListReadable(L, req.buyerHash)
    ensures !Owns(L, req.sellerHash, req.propertyHash) && req.sellerHash !in L.properties ==> r == Err(Panic)
    ensures r.Ok? ==>
      var house := OwnedHouse(L, req.sellerHash, req.propertyHash);
      && ListOf(r.value, req.buyerHash) == ListOf(L, req.buyerHash) + [house]
      && (req.sellerHash != req.buyerHash ==>
            |ListOf(r.value, req.sellerHash)| == |ListOf(L, req.sellerHash)| - 1 &&
            multiset(ListOf(r.value, req.sellerHash)) + multiset{house} == multiset(ListOf(L, req.sellerHash)))
      && (forall k | k != req.buyerHash && k != req.sellerHash :: Lookup(r.value.properties, k) == Lookup(L.properties, k))
      && r.value.requests == L.requests && r.value.queues == L.queues && r.value.money == L.money
  {
    var taken :- TakeProperty(L, L, req.sellerHash, req.propertyHash);
    var xs := ListOf(L, req.sellerHash);
    assert taken.0 == OwnedHouse(L, req.sellerHash, req.propertyHash);
    assert Lookup(taken.1.properties, req.sellerHash)
      == Some(Decoded(RemoveAt(xs, Sequences.FirstMatch(xs, PropertyHash, req.propertyHash).value)));
    GiveHouse(L, taken.1, req.buyerHash, taken.0)
  }

  /** The buyer's list as read at the start, plus the house, written on top
      of `P`; only an undecodable list fails. */
  function GiveHouse(L: Ledger, P: Ledger, buyer: string, house: Property): (r: Result<Ledger>)
    ensures r.Ok? <==> ListReadable(L, buyer)
    ensures r.Ok? ==>
      && ListOf(r.value, buyer) == ListOf(L, buyer) + [house]
      && (forall k | k != buyer :: Lookup(r.value.properties, k) == Lookup(P.properties, k))
      && r.value.requests == P.requests && r.value.queues == P.queues && r.value.money == P.money
  {
    var bought :- AppendOwned(Lookup(L.properties, buyer), house);
    Ok(P.(properties := P.properties[buyer := Decoded(bought)]))
  }
}
