# HomeLend chaincode model

A Dafny model of the HomeLend mortgage workflow, as three Hyperledger Fabric
chaincodes implement it:

- **lending** (`chaincode/lending_chaincode/lending_chaincode.go`). Sellers
  advertise houses. A buyer files a loan request, which then moves through a
  chain of work queues:

  1. a credit rating agency grades the request;
  2. banks make offers, and the buyer selects one;
  3. the buyer names an appraiser, who provides an amount;
  4. insurers make offers, and the buyer selects one;
  5. the government reports its checks;
  6. the bank approves or declines;
  7. the bank runs the sale, paying the seller from the request's escrow
     account and moving the house to the buyer.
- **mortgage** (`chaincode/mortgage_chaincode/mortgage_chaincode.go`). An
  older single `buy` that moves a house between two users' lists and pays the
  seller from the buyer's escrow.
- **credit score** (`chaincode/creditscore_chaincode/creditscore_chaincode.go`).
  It grades a salary into one of three bands.

Every invocation is a pure function from the world state to
`Result<state>`. `Err` means nothing is written, because Fabric discards a
failed transaction. Reads see the state as it was before the invocation:
Fabric's GetState does not see the same invocation's PutState. Writes build
up on top of each other, and a later write to a key replaces an earlier one.
A helper whose error the Go code ignores is modelled as "the write if it
succeeded, otherwise nothing".

The lending world state is split by kind of value:
- house lists, keyed by owner and by "properties4sale";
- request collections, keyed by buyer;
- work queues, keyed by queue name;
- balances as decimal text, keyed by account.

A stored JSON value either decodes (`Decoded`) or does not (`Garbled`). This
matters because an undecodable value is the only way addOrUpdateRequest can
fail. Decoding the arguments, parsing floats and the payment formula are
parameters of the model (`Env`).

The model covers:

- **Modules.** `Wrappers`, `Sequences` (the first-match search every
  lookup by hash uses), `Decimal` (Itoa/Atoi with their round trip),
  `LendingTypes`, `RequestQueues`, `RequestStore`, `PropertyStore`,
  `MoneyLedger`, `LendingRules` (the pure decisions), `LendingHandlers` (the
  twelve invocations) and `LendingWorkflow` (dispatch, runs, invariants over
  runs, and the finding below). `Mortgage` and `CreditScore` model the other
  two chaincodes.
- **removeFromRequestArray.** It deletes each matching entry and then skips
  the entry after it. It is modelled literally, both as a loop (`method
  RemoveFromRequestArray`) and as a reference function (`SkipRemove`).
  Lemmas show what this removes: everything else is kept in order, and a
  single match is removed exactly. Of two adjacent matches, the second stays.
- **The mortgage chaincode** keeps balances and house lists under the same
  key.
  - The buyer's list is written under both the buyer's and the seller's key.
  - A buyer who already had a list gains nothing.
  - The seller's key is then overwritten by the seller's balance. The seller
    read -1 there, because the key held a list, so the balance is the price
    less one.

  These look like defects, but the source states no other intent for `buy`,
  so the model keeps them as written on purpose and proves them
  (`Mortgage.BuyerListAfterBuy`, `Mortgage.SellerLosesList`) instead of
  correcting them.

## Model

| member | source | states |
|---|---|---|
| Decimal.AtoiItoa | chaincode/lending_chaincode/lending_chaincode.go:2070-2147 | a balance written with Itoa reads back with Atoi as exactly the number written, for every integer |
| Decimal.AtoiAccepts | chaincode/lending_chaincode/lending_chaincode.go:2126-2147 | Atoi succeeds exactly on an optional sign followed by one or more decimal digits |
| RequestQueues.RemoveFromRequestArray | chaincode/lending_chaincode/lending_chaincode.go:1816-1822 | the Go loop (delete at i, then i++) reports found exactly when some entry names the request, and leaves exactly what the reference SkipRemove describes |
| RequestQueues.SkipRemoveIsSubsequence | chaincode/lending_chaincode/lending_chaincode.go:1816-1822 | removal only deletes entries and never reorders them |
| RequestQueues.SkipRemoveKeepsOthers | chaincode/lending_chaincode/lending_chaincode.go:1816-1822 | every entry for another request survives, in its original order |
| RequestQueues.SkipRemoveDropsMatch | chaincode/lending_chaincode/lending_chaincode.go:1816-1822 | when the request is queued at least one of its entries goes; when it is not, the queue is unchanged |
| RequestQueues.SkipRemoveSingle | chaincode/lending_chaincode/lending_chaincode.go:1816-1822 | with one entry for the request, removal is exact: that entry alone goes and none remains |
| RequestQueues.SkipRemoveKeepsAdjacentMatch | chaincode/lending_chaincode/lending_chaincode.go:1816-1822 | the entry after a deleted match is never examined: of two adjacent entries for one request, the second stays queued |
| RequestQueues.AddLink | chaincode/lending_chaincode/lending_chaincode.go:1741-1796 | a missing queue starts with the link; an undecodable one is an error; a decoded queue refuses a link with the same user and request (Duplicate) and otherwise gains it at the end |
| RequestQueues.RemoveLink | chaincode/lending_chaincode/lending_chaincode.go:1798-1840 | succeeds exactly when the queue exists, decodes and names the request; the result keeps every other entry, has fewer entries for the request, and loses exactly one entry when there was one; errors say Malformed or NotQueued |
| RequestQueues.Enqueue | chaincode/lending_chaincode/lending_chaincode.go:1741-1796 | succeeds exactly when the queue read at the start accepts the link; the queue written is that one plus the link |
| RequestQueues.Dequeue | chaincode/lending_chaincode/lending_chaincode.go:1798-1840 | succeeds exactly when the request is queued at the start; the queue written has the request removed as the loop removes it |
| Sequences.FirstMatch | chaincode/lending_chaincode/lending_chaincode.go:1892-1896 | none exactly when no element has the hash; otherwise the index of the first element with it, as getRequest's loop with its break finds it (getProperty and findHouse use the same search) |
| RequestStore.Upsert | chaincode/lending_chaincode/lending_chaincode.go:1901-1948 | every request with the same hash is replaced by the new one, the rest are kept in place, and the new one is appended only when none had its hash |
| RequestStore.UpsertThenFind | chaincode/lending_chaincode/lending_chaincode.go:1869-1948 | after writing a request, reading its hash returns it |
| RequestStore.UpsertKeepsOthers | chaincode/lending_chaincode/lending_chaincode.go:1869-1948 | writing a request does not change what reading any other hash returns |
| RequestStore.GetRequest | chaincode/lending_chaincode/lending_chaincode.go:1869-1899 | succeeds exactly when the buyer's collection decodes and holds the hash, and returns the first such request; an undecodable collection is Malformed and a missing one NotFound |
| RequestStore.PutRequest | chaincode/lending_chaincode/lending_chaincode.go:1901-1948 | fails (Malformed) exactly when the buyer's stored collection does not decode; otherwise only that buyer's collection changes, to the upserted one |
| RequestStore.PutThenGet | chaincode/lending_chaincode/lending_chaincode.go:1869-1948 | round trip: after addOrUpdateRequest(r), getRequest(r.BuyerHash, r.Hash) returns r, other hashes read as before, other buyers are untouched, and the collection grows exactly when r's hash was new |
| RequestStore.PutRequestEvolves | chaincode/lending_chaincode/lending_chaincode.go:1901-1948 | a request write with one of the twelve statuses keeps every readable request readable and keeps every stored status among the twelve |
| PropertyStore.LastSaleIndex | chaincode/lending_chaincode/lending_chaincode.go:1402-1407 | the loop without a break picks the last for-sale entry with the house hash and the seller |
| PropertyStore.RemoveAt | chaincode/lending_chaincode/lending_chaincode.go:1415-1415 | removing index i shortens the list by one, keeps the order, and is a permutation of the list less that element |
| PropertyStore.GetProperty | chaincode/lending_chaincode/lending_chaincode.go:2149-2177 | an absent owner gives no list and no error; a decoded list holding the hash gives the first such house; an undecodable list or a missing hash is an error |
| PropertyStore.TakeProperty | chaincode/lending_chaincode/lending_chaincode.go:2179-2199 | succeeds exactly when the owner's list decodes and holds the hash; the house returned is the first with the hash and the list written lacks it; an absent owner panics |
| PropertyStore.AppendOwned | chaincode/lending_chaincode/lending_chaincode.go:361-408 | the seller's list gains the house at the end, without a duplicate check; only an undecodable list fails |
| PropertyStore.AddForSale | chaincode/lending_chaincode/lending_chaincode.go:410-466 | properties4sale gains the house exactly when it is absent, or decodes and holds no house with that hash; otherwise Duplicate |
| PropertyStore.RemoveForSale | chaincode/lending_chaincode/lending_chaincode.go:1385-1423 | succeeds exactly when properties4sale decodes and holds the house from that seller; the last such entry is removed and nothing else changes |
| MoneyLedger.GetMoney | chaincode/lending_chaincode/lending_chaincode.go:2126-2147 | an absent or empty balance reads 0, a non-integer one reads -1, otherwise the integer written |
| MoneyLedger.MoveMoney | chaincode/lending_chaincode/lending_chaincode.go:2070-2124 | succeeds exactly when the source reads non-negative and at least the sum (the second guard re-tests the source, so the destination is never checked); the destination gains the sum and a distinct source loses it, and no other balance changes |
| MoneyLedger.MoveMoneyConserves | chaincode/lending_chaincode/lending_chaincode.go:2070-2124 | between two distinct accounts a transfer conserves the total and leaves the source non-negative |
| MoneyLedger.MoveMoneyUnreadableDestination | chaincode/lending_chaincode/lending_chaincode.go:2077-2084 | an unreadable destination does not stop a transfer and ends holding sum - 1 |
| LendingRules.GetIdentity | chaincode/lending_chaincode/lending_chaincode.go:1842-1867 | the caller is refused (Unauthorized) exactly when a role is demanded and the caller's MSP differs; otherwise the caller's identity is returned |
| LendingRules.CreditRankBands | chaincode/lending_chaincode/lending_chaincode.go:2005-2016 | C below 10000, B strictly between 10000 and 20000, A above 20000; exactly 10000 and 20000 are errors |
| LendingRules.CreditRankMonotone | chaincode/lending_chaincode/lending_chaincode.go:2005-2016 | a higher salary never gets a worse grade |
| LendingRules.PaymentInputs | chaincode/lending_chaincode/lending_chaincode.go:2201-2213 | calcPmt accepts exactly a rate in [0, 100], 1 to 500 months and a loan of 1 to 100000000; anything else is InvalidInput |
| LendingRules.CalcPmt | chaincode/lending_chaincode/lending_chaincode.go:2201-2219 | a payment is produced exactly when the inputs are in range |
| LendingRules.BankOwnerValid | chaincode/lending_chaincode/lending_chaincode.go:2061-2065 | true exactly when every offer with the selected hash belongs to the bank |
| LendingRules.ValidateBankOwner | chaincode/lending_chaincode/lending_chaincode.go:2059-2068 | passes exactly when no offer with the selected hash belongs to another bank; a hash that names no offer passes |
| LendingRules.ValidateBeforeApprove | chaincode/lending_chaincode/lending_chaincode.go:2030-2057 | a missing government report panics; any government flag approves; otherwise the appraisal below 10/9 of the loan declines, then a missing insurance selection declines, then an offer of another bank is Forbidden |
| LendingHandlers.StoreAndMove | chaincode/lending_chaincode/lending_chaincode.go:1016-1039 | a request write whose error propagates, then a move between queues: succeeds exactly when all three steps can; the request reads back and the link moves from one queue to the end of the other |
| LendingHandlers.KeepAndMove | chaincode/lending_chaincode/lending_chaincode.go:1497-1514 | a request write whose error is dropped, then a move between queues: only the queues decide success; the request reads back when the write could happen and the store is untouched when it could not |
| LendingHandlers.Advertise | chaincode/lending_chaincode/lending_chaincode.go:328-469 | only a seller with a decodable house gets through, and only when the house is not already for sale; the house ends up in the seller's list and in properties4sale, and requests, queues and money are untouched |
| LendingHandlers.Buy | chaincode/lending_chaincode/lending_chaincode.go:1340-1426 | only a buyer gets through, and only when the seller has that house for sale; the request is stored and readable; properties4sale loses the last matching entry; the request is queued for credit rating unless that queue refuses it, a refusal being ignored |
| LendingHandlers.FileRequest | chaincode/lending_chaincode/lending_chaincode.go:1377-1423 | buy's writes: succeed exactly when the buyer's collection decodes and the house is for sale from that seller |
| LendingHandlers.CalcCreditScore | chaincode/lending_chaincode/lending_chaincode.go:1197-1287 | only the credit agency gets through; success needs the request readable, queued for rating, storable and accepted by open4bankoffers, and these together suffice; the graded request moves from the rating queue to open4bankoffers |
| LendingHandlers.BankPutOffer | chaincode/lending_chaincode/lending_chaincode.go:867-952 | only a bank gets through; the offer (with the payment for the request's loan) is appended and the status set; the request is also taken off open4bankoffers, and success needs it queued there |
| LendingHandlers.BuyerSelectBankOffer | chaincode/lending_chaincode/lending_chaincode.go:1453-1516 | the role is checked before the arity; succeeds exactly when the buyer's request names the offer, is on open4bankoffers and is accepted by selectAppraiser; the link moves between those queues |
| LendingHandlers.BuyerSelectAppraiser | chaincode/lending_chaincode/lending_chaincode.go:1518-1565 | succeeds exactly when the buyer's request is on selectAppraiser and the chosen appraiser's queue accepts it; the link moves to that appraiser's queue |
| LendingHandlers.AppraiserProvideAmount | chaincode/lending_chaincode/lending_chaincode.go:626-690 | a non-integer amount is Malformed; only the appraiser the buyer chose gets through (Forbidden otherwise); the link moves from that appraiser's queue to open4InsuranceOffers |
| LendingHandlers.InsurancePutOffer | chaincode/lending_chaincode/lending_chaincode.go:744-813 | only an insurer with a parsable amount gets through; the offer is appended and the status set; the request leaves open4InsuranceOffers if it was there, and a failure there is ignored |
| LendingHandlers.BuyerSelectInsuranceOffer | chaincode/lending_chaincode/lending_chaincode.go:1567-1617 | succeeds exactly when the buyer's request names the offer and can be stored; the selection is recorded; joining pending4Government is attempted and its failure ignored; nothing leaves a queue |
| LendingHandlers.GovernmentReport | chaincode/lending_chaincode/lending_chaincode.go:485-487 | each flag is set exactly when its argument is the literal "true": house owner from argument 2, lien from argument 3, warning shot from argument 4 |
| LendingHandlers.GovernmentPutData | chaincode/lending_chaincode/lending_chaincode.go:472-529 | only the government gets through; the report is recorded and the request joins pending4bankApproval; leaving pending4Government is attempted and its failure ignored |
| LendingHandlers.BankApprove | chaincode/lending_chaincode/lending_chaincode.go:954-1043 | only a bank gets through; a decline records the reason and keeps queues and money; an approval sets escrow to the loan amount and moves the link to pending4ChaincodeExecute |
| LendingHandlers.Decline | chaincode/lending_chaincode/lending_chaincode.go:1002-1014 | the declined request with its reason is stored, and nothing else changes |
| LendingHandlers.Approve | chaincode/lending_chaincode/lending_chaincode.go:1016-1039 | the escrow balance becomes the loan amount whatever it held, no other balance changes, and the link moves from pending4bankApproval to pending4ChaincodeExecute |
| LendingHandlers.BankRunChaincode | chaincode/lending_chaincode/lending_chaincode.go:1045-1143 | a bank gets through unless an offer with the selected hash belongs to another bank, so any bank passes when no offer has that hash (for instance when no offer was selected); the house goes from the seller's list to the buyer's; the seller gains the loan from escrow; the request completes and leaves pending4ChaincodeExecute |
| LendingHandlers.Settle | chaincode/lending_chaincode/lending_chaincode.go:1079-1139 | the sale succeeds exactly when the seller owns the house, the buyer's list reads, escrow covers the loan, the request can be stored and it is queued for execution |
| LendingHandlers.TransferHouse | chaincode/lending_chaincode/lending_chaincode.go:1079-1111 | the house leaves the seller's list and is appended to the buyer's; an absent seller list panics; when seller and buyer coincide the buyer's write wins |
| LendingHandlers.PayAndClose | chaincode/lending_chaincode/lending_chaincode.go:1113-1139 | escrow pays the loan to the seller, the request is marked completed and leaves the execution queue, and the house lists already written stay |
| LendingWorkflow.StepNeedsRole | chaincode/lending_chaincode/lending_chaincode.go:191-275 | any successful invocation was made by the organisation that invocation demands |
| LendingWorkflow.StepEvolves | chaincode/lending_chaincode/lending_chaincode.go:191-275 | no successful invocation makes a readable request unreadable or stores an unknown status |
| LendingWorkflow.RunKeepsRequests | chaincode/lending_chaincode/lending_chaincode.go:191-275 | over any sequence of invocations, committed or discarded, readable requests stay readable and statuses stay known |
| LendingWorkflow.StatusesAlwaysKnown | chaincode/lending_chaincode/lending_chaincode.go:20-35 | from the empty world state, every stored request always carries one of the twelve statuses the handlers write, all of them in the list at lines 20-35 (REQUEST_DATA_PROVIDED is listed but never written) |
| LendingWorkflow.CreditScoreQueuesOnce | chaincode/lending_chaincode/lending_chaincode.go:1197-1287 | calcCreditScore puts a request not yet on open4bankoffers there exactly once |
| LendingWorkflow.OfferPathStuck | chaincode/lending_chaincode/lending_chaincode.go:938-943 | after a bank's offer on a request queued once, the buyer's selection of that offer always fails |
| LendingWorkflow.SecondOfferRefused | chaincode/lending_chaincode/lending_chaincode.go:938-943 | after one bank's offer, a second bank's offer on the same request always fails |
| LendingWorkflow.BankPutOfferFixed | chaincode/lending_chaincode/lending_chaincode.go:867-952 | the corrected offer succeeds exactly when the original does; it appends the same offer, touches no other buyer, and leaves the queues unchanged |
| LendingWorkflow.FixedOfferThenSelect | chaincode/lending_chaincode/lending_chaincode.go:1453-1516 | after a corrected offer the buyer can select it, provided selectAppraiser accepts the request |
| LendingWorkflow.FixedOffersAccumulate | chaincode/lending_chaincode/lending_chaincode.go:867-952 | after one corrected offer, another bank's corrected offer on the same request still succeeds |
| Mortgage.GetHouseList | chaincode/mortgage_chaincode/mortgage_chaincode.go:301-318 | only an array yields a list; an absent key or non-array text yields nil with no error; a string array yields that many blank houses |
| Mortgage.FindHouse | chaincode/mortgage_chaincode/mortgage_chaincode.go:208-226 | succeeds exactly when the seller has a list holding the hash, and returns the first such house with its index; success implies the seller's key holds an array |
| Mortgage.GetMoney | chaincode/mortgage_chaincode/mortgage_chaincode.go:228-245 | an absent key or non-integer text (every list is one) reads -1, otherwise the integer |
| Mortgage.ReadLog | chaincode/mortgage_chaincode/mortgage_chaincode.go:277-286 | decoding the transfer log fails on an absent key and on anything but a string array, an empty array or "null" |
| Mortgage.PutBalance | chaincode/mortgage_chaincode/mortgage_chaincode.go:270-274 | a written balance reads back, replaces any list under that key, and changes no other key |
| Mortgage.MoveMoney | chaincode/mortgage_chaincode/mortgage_chaincode.go:247-298 | succeeds exactly when the source reads non-negative and at least the sum and the log decodes; the destination gains the sum, a distinct source loses it, the log gains one entry, and nothing else changes |
| Mortgage.Buy | chaincode/mortgage_chaincode/mortgage_chaincode.go:106-206 | any organisation gets through; succeeds exactly when the request decodes, the seller lists the house, the buyer's escrow covers its price and the log decodes; only the buyer, seller, escrow and log keys change |
| Mortgage.BuyIgnoresMsp | chaincode/mortgage_chaincode/mortgage_chaincode.go:137-142 | the caller's MSP never changes the outcome: the check only builds a message |
| Mortgage.BuyerListAfterBuy | chaincode/mortgage_chaincode/mortgage_chaincode.go:166-169 | a buyer without a list ends with the house alone; a buyer with a list ends with it unchanged and without the house |
| Mortgage.SellerLosesList | chaincode/mortgage_chaincode/mortgage_chaincode.go:180-204 | after a purchase the seller's key holds no list, only a balance of the price less one |
| Mortgage.EscrowPaysPrice | chaincode/mortgage_chaincode/mortgage_chaincode.go:200-203 | the buyer's escrow loses exactly the price and stays non-negative, and the log records the transfer |
| CreditScore.Query | chaincode/creditscore_chaincode/creditscore_chaincode.go:53-73 | a non-integer salary is refused; C below 10000, B strictly between 10000 and 20000, A above 20000, and an error at exactly 10000 or 20000 |
| CreditScore.QueryIgnoresLoan | chaincode/creditscore_chaincode/creditscore_chaincode.go:53-61 | the loan amount never affects the grade |
| CreditScore.QueryAgreesWithLending | chaincode/creditscore_chaincode/creditscore_chaincode.go:63-72 | for every integer salary, query gives the same answer as the lending chaincode's getCreditRankScore |
| CreditScore.Invoke | chaincode/creditscore_chaincode/creditscore_chaincode.go:44-49 | only "query" is known, and calling it with fewer than two arguments panics |

## Left out

- JSON encoding and decoding. Decoding is a parameter (`Env`), and a stored
  value is either decodable or not. Field-level JSON behaviour is not
  modelled.
- The lending world state is modelled as four maps, one per kind of value,
  so a key of one kind cannot collide with a key of another.
- Time, logging and fmt output have no effect on the state, and are left out.
- The Invoke dispatch of the lending chaincode (lines 191-275) is left out.
  This includes its index panics on short argument lists for the read-only
  functions. `LendingWorkflow.Step` dispatches the twelve handlers instead.
- The profile handlers (putSellerPersonalInfo, appraiserPutPersonalInfo,
  putInsuranceCompanyInfo, putBankInfo, putCreditRatingAgencyInfo,
  putBuyerPersonalInfo) are left out. They only store JSON under their own
  key.
- The read-only functions getProperties, query, getArray and
  getRequestForSpecificPlayer (lines 1428-1451, 1690-1728 and 1950-2003) are
  left out. They write nothing.
- buyerUploadDocuments (lines 1620-1688) is left out, because Invoke never
  calls it.
- The government and insurance chaincodes are not part of this model.
- LendingHandlers.BankPutOffer: the interest rate is a `real` from
  `Env.parseFloat`, which has no NaN or infinity. Go's ParseFloat accepts
  "NaN", and both comparisons of calcPmt's range check (line 2203) are false
  for it, so the source installs an offer with a NaN rate. The model's
  "success implies the rate lies in [0, 100]" does not cover that input.
- LendingHandlers.InsurancePutOffer: the insured amount is a `real` from
  `Env.parseFloat`, so the NaN and infinite amounts that insurancePutOffer
  (line 791) parses and stores without a range check cannot be represented.
- LendingRules.CalcPmt: the payment formula and its float32 rounding are a
  parameter (`Env.payment`). Only the input checks are modelled.
- LendingRules.ValidateBeforeApprove: the 10% margin is compared in exact
  arithmetic, not in float64.
- Decimal.Atoi: Go's 64-bit range error is not modelled. Integers are
  unbounded throughout, so int64 overflow in balances is not modelled either.
- MoneyLedger.MoveMoney: the transfer log (lines 2103-2122) is left out. It
  sits after the `return nil` at line 2101, so it never runs.
- Mortgage.GetHouseList: non-array text is treated as one kind of value, so
  JSON such as a bare object is not distinguished from garbage.
- Mortgage.ReadLog: only the literal "null" is treated as JSON null. The same
  text with surrounding white space is not.

## Findings

| source | as written | input that shows it | evidently intended | confidence | as-written member | corrected member |
|---|---|---|---|---|---|---|
| chaincode/lending_chaincode/lending_chaincode.go:938-943 | bankPutOffer removes the request from open4bankoffers after storing the offer. buyerSelectBankOffer (lines 1497-1501) later removes the same request from the same queue and fails if it is not there. | a request queued once on open4bankoffers by calcCreditScore; one bank's offer succeeds; the buyer's selection of that offer, or a second bank's offer, is then refused with "RequestLink was not found" | the offer leaves the request open for offers, and the buyer's selection takes it off the queue | not executed | LendingWorkflow.OfferPathStuck | LendingWorkflow.BankPutOfferFixed |
