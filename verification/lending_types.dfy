/** The entities of the lending chaincode, the ledger they live in, and the
    key names (queue names, MSP names, status literals) the handlers use.

    The world state is one key-value store; here it is split by the type of
    value each key holds:
    - `properties`: property lists, under the owner's identity (a seller's
      advertised houses, a buyer's bought ones) and under `properties4sale`;
    - `requests`: each buyer's request collection, stored under
      "requests_" + buyer and keyed here by the buyer alone;
    - `queues`: the named RequestLink collections, under their full names;
    - `money`: balance text, stored under "money_" + account and keyed here by
      the account alone.
    Every JSON cell may fail to decode (`Garbled`); balance cells are raw text. */
module LendingTypes {
  import opened Wrappers

  datatype Property = Property(
    hash: string,
    sellerHash: string,
    address: string,
    imageBase64: string,
    sellingPrice: real)

  datatype InsuranceOffer = InsuranceOffer(
    hash: string,
    insuranceHash: string,
    insuranceAmount: real)

  datatype BankOffer = BankOffer(
    hash: string,
    bankHash: string,
    interest: real,
    monthlyPayment: real)

  datatype GovernmentResults = GovernmentResults(
    checkLien: bool,
    checkHouseOwner: bool,
    checkWarningShot: bool)

  /** A queue entry pointing at request `requestHash` of buyer `userHash`. */
  datatype RequestLink = RequestLink(userHash: string, requestHash: string)

  datatype Request = Request(
    hash: string,
    propertyHash: string,
    buyerHash: string,
    sellerHash: string,
    appraiserHash: string,
    appraiserAmount: int,
    creditScore: string,
    creditScoreIdentity: string,
    loanAmountLeftToRefund: int,
    governmentResults: Option<GovernmentResults>,  // a nil pointer until the government reports
    insuranceOffers: seq<InsuranceOffer>,
    bankOffers: seq<BankOffer>,
    selectedBankOfferHash: string,
    selectedInsuranceOfferHash: string,
    salary: int,
    salaryBase64: string,
    loanAmount: int,
    duration: int,
    status: string,
    declineInfo: string)

  /** A JSON cell: either it unmarshals into a `T` or it does not. */
  datatype Stored<+T> = Decoded(value: T) | Garbled

  datatype Ledger = Ledger(
    properties: map<string, Stored<seq<Property>>>,
    requests: map<string, Stored<seq<Request>>>,
    queues: map<string, Stored<seq<RequestLink>>>,
    money: map<string, string>)

  /** What the model takes from outside: JSON decoding of the arguments,
      `strconv.ParseFloat`, and the floating-point payment formula of calcPmt. */
  datatype Env = Env(
    decodeLink: string -> Option<RequestLink>,
    decodeRequest: string -> Option<Request>,
    decodeProperty: string -> Option<Property>,
    parseFloat: string -> Option<real>,
    payment: (real, int, int) -> real)

  // Organisations (MSP identifiers) the handlers require of their caller.
  const SellerMsp := "POCSellerMSP"
  const BuyerMsp := "POCBuyerMSP"
  const BankMsp := "POCBankMSP"
  const AppraiserMsp := "POCAppraiserMSP"
  const InsuranceMsp := "POCInsuranceMSP"
  const GovernmentMsp := "POCGovernmentMSP"
  const CreditRatingMsp := "POCCreditRatingAgencyMSP"

  // Keys of the shared collections.
  const PropertiesForSale := "properties4sale"
  const CreditRankOpenRequests := "creditRankOpenRequests"
  const Open4BankOffers := "open4bankoffers"
  const SelectAppraiser := "selectAppraiser"
  const Open4InsuranceOffers := "open4InsuranceOffers"
  const Pending4Government := "pending4Government"
  const Pending4BankApproval := "pending4bankApproval"
  const Pending4ChaincodeExecute := "pending4ChaincodeExecute"
  /** Prefix of the per-appraiser queue; the appraiser's identity follows it. */
  const PendingForAppraiserEstimation := "pendingForAppraiserEstimation_"
  /** Prefix of a request's escrow account; the request hash follows it. */
  const EscrowPrefix := "escrow_"

  // The status literals the handlers write.
  const StatusInitialized := "REQUEST_INITIALIZED"
  const StatusCreditScoreInstalled := "REQUEST_CREDIT_SCORE_INSTALLED"
  const StatusBankOfferInstalled := "BANK_OFFER_INSTALLED"
  const StatusBuyerSelectedBankOffer := "BUYER_SELECTED_BANK_OFFER"
  const StatusAppraiserChosen := "REQUEST_APPRAISER_CHOSEN"
  const StatusAppraiserProvidedAmount := "APPRAISER_PROVIEDED_AMOUNT"
  const StatusInsuranceOfferProvided := "INSURANCE_OFFER_PROVIDED"
  const StatusInsuranceOfferSelected := "INSURANCE_OFFER_SELECTED"
  const StatusGovernmentProvided := "REQUEST_GOVERNMENT_PROVIDED"
  const StatusDeclinedByBank := "REQUEST_DECLINED_BY_BANK"
  const StatusApprovedByBank := "REQUEST_APPROVED_BY_BANK"
  const StatusCompleted := "REQUEST_COMPLETED-ACTIVE-MORTGAGE"

  const Statuses: set<string> := {
    StatusInitialized, StatusCreditScoreInstalled, StatusBankOfferInstalled,
    StatusBuyerSelectedBankOffer, StatusAppraiserChosen, StatusAppraiserProvidedAmount,
    StatusInsuranceOfferProvided, StatusInsuranceOfferSelected, StatusGovernmentProvided,
    StatusDeclinedByBank, StatusApprovedByBank, StatusCompleted
  }

  /** The queue an appraiser pulls its pending estimations from. */
  function AppraiserQueue(appraiser: string): string
  {
    PendingForAppraiserEstimation + appraiser
  }

  /** The money account holding the funds a bank reserved for a request. */
  function EscrowAccount(requestHash: string): string
  {
    EscrowPrefix + requestHash
  }

  /** The link a handler rebuilds from a request it loaded. */
  function LinkOf(r: Request): RequestLink
  {
    RequestLink(r.buyerHash, r.hash)
  }
}
