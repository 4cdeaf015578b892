/** The mortgage chaincode (chaincode/mortgage_chaincode): a single `buy`
    that moves a house from the seller's list to the buyer's and pays the
    seller from the buyer's escrow.

    Unlike the lending chaincode, this one keeps everything under bare keys:
    a user's house list and the same user's balance share the key that is the
    user's identity, escrow balances live under "escrow_" + buyer, and the
    transfer log under "moneyTransfer". A cell is modelled by what its text
    is: a JSON array of houses, a JSON array of strings (the log), or other
    text (balances, "null", garbage, the empty string). */
module Mortgage {
  import opened Wrappers
  import opened Decimal
  import LendingTypes
  import opened Sequences

  datatype House = House(hash: string, address: string, sellingPrice: int)

  datatype MortgageRequest = MortgageRequest(
    hash: string,
    propertyHash: string,
    buyerHash: string,
    sellerHash: string,
    creditScore: string,
    salary: int,
    loanAmount: int,
    status: string)

  datatype Cell = Houses(houses: seq<House>) | Log(entries: seq<string>) | Text(text: string)

  type State = map<string, Cell>

  const MoneyTransferKey := "moneyTransfer"

  /** What a log entry becomes when a string array is decoded as houses:
      encoding/json allocates each element and fails to fill it. */
  const BlankHouse := House("", "", 0)

  /** The key of a buyer's escrow balance. */
  function Escrow(buyer: string): string
  {
    LendingTypes.EscrowPrefix + buyer
  }

  /** getHouseList (lines 301-318): the decode error is ignored, so only an
      array yields a list; absent, empty or non-array text yields nil. An
      empty array is a list, not nil. */
  function GetHouseList(S: State, user: string): (r: Option<seq<House>>)
    ensures r.None? <==> user !in S || S[user].Text?
    ensures user in S && S[user].Houses? ==> r == Some(S[user].houses)
    ensures user in S && S[user].Log? ==>
      r.Some? && |r.value| == |S[user].entries| && forall i | 0 <= i < |r.value| :: r.value[i] == BlankHouse
  {
    if user !in S then None
    else
      match S[user]
      case Houses(xs) => Some(xs)
      case Log(es) => Some(seq(|es|, _ => BlankHouse))
      case Text(_) => None
  }

  /** A house's key in findHouse's search. */
  function HouseHash(x: House): string { x.hash }

  /** findHouse (lines 208-226): the first house with hash `h` in the
      seller's list, with its index. */
  function FindHouse(S: State, seller: string, h: string): (r: Result<(House, nat)>)
    ensures r.Ok? <==> GetHouseList(S, seller).Some? && FirstMatch(GetHouseList(S, seller).value, HouseHash, h).Some?
    ensures r.Ok? ==>
      var xs := GetHouseList(S, seller).value;
      && r.value.1 < |xs| && xs[r.value.1] == r.value.0 && r.value.0.hash == h
      && forall j | 0 <= j < r.value.1 :: xs[j].hash != h
    ensures r.Ok? ==> seller in S && !S[seller].Text?
  {
    match GetHouseList(S, seller)
    case None => Err(NotFound)
    case Some(xs) =>
      match FirstMatch(xs, HouseHash, h)
      case None => Err(NotFound)
      case Some(i) => Ok((xs[i], i))
  }

  /** getMoney (lines 228-245): the integer the text holds, or -1 when the key
      is absent or its text is not an integer (an array never is). */
  function GetMoney(S: State, user: string): (n: int)
    ensures user !in S ==> n == -1
    ensures user in S && !S[user].Text? ==> n == -1
    ensures user in S && S[user].Text? ==> n == Atoi(S[user].text).GetOr(-1)
  {
    if user in S && S[user].Text? then Atoi(S[user].text).GetOr(-1) else -1
  }

  /** The transfer log as moveMoney decodes it from "moneyTransfer": an
      absent key is "unexpected end of JSON input"; "null" and an empty
      array decode to no entries; a non-empty house array or other text is
      a type or syntax error. */
  function ReadLog(S: State): (r: Result<seq<string>>)
    ensures r.Ok? <==> (MoneyTransferKey in S &&
      (S[MoneyTransferKey].Log? || S[MoneyTransferKey] == Houses([]) || S[MoneyTransferKey] == Text("null")))
    ensures r.Ok? && S[MoneyTransferKey].Log? ==> r.value == S[MoneyTransferKey].entries
    ensures r.Ok? && !S[MoneyTransferKey].Log? ==> r.value == []
  {
    if MoneyTransferKey !in S then Err(Malformed)
    else
      match S[MoneyTransferKey]
      case Log(es) => Ok(es)
      case Houses(xs) => if |xs| == 0 then Ok([]) else Err(Malformed)
      case Text(t) => if t == "null" then Ok([]) else Err(Malformed)
  }

  /** The log line moveMoney appends. */
  function TransferEntry(src: string, dst: string, sum: int): string
  {
    src + "_" + dst + "_" + Itoa(sum)
  }

  /** Writing a balance as decimal text: it reads back, and replaces
      whatever list the key held. */
  function PutBalance(S: State, user: string, n: int): (S': State)
    ensures GetMoney(S', user) == n
    ensures GetHouseList(S', user).None?
    ensures forall k | k != user :: Lookup(S', k) == Lookup(S, k)
  {
    AtoiItoa(n);
    S[user := Text(Itoa(n))]
  }

  /** The two balance writes of a transfer, the destination's last. */
  function PutBalances(S: State, src: string, a: int, dst: string, b: int): (S': State)
    ensures GetMoney(S', dst) == b && GetHouseList(S', dst).None?
    ensures src != dst ==> GetMoney(S', src) == a && GetHouseList(S', src).None?
    ensures forall k | k != src && k != dst :: Lookup(S', k) == Lookup(S, k)
  {
    PutBalance(PutBalance(S, src, a), dst, b)
  }

  /** moveMoney (lines 247-298), reading `pre` and writing into `post`. The
      guard after reading the destination re-tests the source, as in the
      lending chaincode, so the destination is never checked. The balances
      are written before the log is read, but a failed read discards the
      whole invocation anyway. */
  function MoveMoney(pre: State, post: State, src: string, dst: string, sum: int): (r: Result<State>)
    ensures r.Ok? <==> GetMoney(pre, src) >= 0 && GetMoney(pre, src) >= sum && ReadLog(pre).Ok?
    ensures r.Ok? ==> Lookup(r.value, MoneyTransferKey) == Some(Log(ReadLog(pre).value + [TransferEntry(src, dst, sum)]))
    ensures r.Ok? && dst != MoneyTransferKey ==>
      GetMoney(r.value, dst) == GetMoney(pre, dst) + sum && GetHouseList(r.value, dst).None?
    ensures r.Ok? && src != dst && src != MoneyTransferKey ==>
      GetMoney(r.value, src) == GetMoney(pre, src) - sum && GetHouseList(r.value, src).None?
    ensures r.Ok? ==> forall k | k != src && k != dst && k != MoneyTransferKey :: Lookup(r.value, k) == Lookup(post, k)
  {
    var srcMoney := GetMoney(pre, src);
    :- Need(srcMoney >= 0, InsufficientFunds);
    var destMoney := GetMoney(pre, dst);
    :- Need(srcMoney >= sum, InsufficientFunds);
    var log :- ReadLog(pre);
    var post1 := PutBalances(post, src, srcMoney - sum, dst, destMoney + sum);
    Ok(post1[MoneyTransferKey := Log(log + [TransferEntry(src, dst, sum)])])
  }

  /** The buyer's list after the purchase of `house`: the house alone when
      the buyer had no list, otherwise the list unchanged. */
  function BuyerList(S: State, buyer: string, house: House): seq<House>
  {
    match GetHouseList(S, buyer)
    case None => [house]
    case Some(xs) => xs
  }

  /** The state buy writes before paying: the buyer's list under both the
      buyer's and the seller's key. */
  function WriteLists(S: State, buyer: string, seller: string, house: House): (S1: State)
    ensures Lookup(S1, seller) == Some(Houses(BuyerList(S, buyer, house)))
    ensures Lookup(S1, buyer) == Some(Houses(BuyerList(S, buyer, house)))
    ensures forall k | k != buyer && k != seller :: Lookup(S1, k) == Lookup(S, k)
  {
    S[buyer := Houses(BuyerList(S, buyer, house))][seller := Houses(BuyerList(S, buyer, house))]
  }

  /** The request buy decodes, and the house it finds, when both succeed. */
  predicate Found(S: State, decode: string -> Option<MortgageRequest>, args: seq<string>)
  {
    && |args| == 1 && |args[0]| > 0
    && decode(args[0]).Some?
    && FindHouse(S, decode(args[0]).value.sellerHash, decode(args[0]).value.propertyHash).Ok?
  }

  function Price(S: State, decode: string -> Option<MortgageRequest>, args: seq<string>): int
    requires Found(S, decode, args)
  {
    FindHouse(S, decode(args[0]).value.sellerHash, decode(args[0]).value.propertyHash).value.0.sellingPrice
  }

  /** buy (lines 106-206). The MSP test only builds a message, so every
      caller gets through; the decode, the seller's list and the payment
      can fail. */
  function Buy(S: State, decode: string -> Option<MortgageRequest>, msp: string, args: seq<string>): (r: Result<State>)
    ensures |args| != 1 ==> r == Err(WrongArgumentCount)
    ensures |args| == 1 && |args[0]| == 0 ==> r == Err(EmptyArgument)
    ensures r.Ok? <==>
      && Found(S, decode, args)
      && GetMoney(S, Escrow(decode(args[0]).value.buyerHash)) >= 0
      && GetMoney(S, Escrow(decode(args[0]).value.buyerHash)) >= Price(S, decode, args)
      && ReadLog(S).Ok?
    ensures r.Ok? ==>
      var q := decode(args[0]).value;
      forall k | k !in {q.buyerHash, q.sellerHash, Escrow(q.buyerHash), MoneyTransferKey} :: Lookup(r.value, k) == Lookup(S, k)
  {
    if |args| != 1 then Err(WrongArgumentCount) else
    :- Need(|args[0]| > 0, EmptyArgument);
    var q :- OrMalformed(decode(args[0]));
    var found :- FindHouse(S, q.sellerHash, q.propertyHash);
    var house := found.0;
    MoveMoney(S, WriteLists(S, q.buyerHash, q.sellerHash, house), Escrow(q.buyerHash), q.sellerHash, house.sellingPrice)
  }

  /** The caller's organisation plays no part in the outcome. */
  lemma BuyIgnoresMsp(S: State, decode: string -> Option<MortgageRequest>, m1: string, m2: string, args: seq<string>)
    ensures Buy(S, decode, m1, args) == Buy(S, decode, m2, args)
  {
  }

  /** A buyer who had no list ends with the bought house alone; a buyer who
      had one ends with it unchanged, without the house. */
  lemma BuyerListAfterBuy(S: State, decode: string -> Option<MortgageRequest>, msp: string, args: seq<string>)
    requires Buy(S, decode, msp, args).Ok?
    requires
      var q := decode(args[0]).value;
      q.buyerHash !in {q.sellerHash, Escrow(q.buyerHash), MoneyTransferKey}
    ensures
      var q := decode(args[0]).value;
      var after := GetHouseList(Buy(S, decode, msp, args).value, q.buyerHash);
      var house := FindHouse(S, q.sellerHash, q.propertyHash).value.0;
      && (GetHouseList(S, q.buyerHash).None? ==> after == Some([house]))
      && (GetHouseList(S, q.buyerHash).Some? ==> after == GetHouseList(S, q.buyerHash))
  {
    var q := decode(args[0]).value;
    var house := FindHouse(S, q.sellerHash, q.propertyHash).value.0;
    var S1 := WriteLists(S, q.buyerHash, q.sellerHash, house);
    var S' := Buy(S, decode, msp, args).value;
    assert S' == MoveMoney(S, S1, Escrow(q.buyerHash), q.sellerHash, house.sellingPrice).value;
    assert Lookup(S', q.buyerHash) == Lookup(S1, q.buyerHash);
  }

  /** The seller's key ends holding a balance and no list: the seller read
      -1 because the key held a list, so the balance is the price less one. */
  lemma SellerLosesList(S: State, decode: string -> Option<MortgageRequest>, msp: string, args: seq<string>)
    requires Buy(S, decode, msp, args).Ok?
    requires
      var q := decode(args[0]).value;
      q.sellerHash != MoneyTransferKey
    ensures
      var q := decode(args[0]).value;
      && GetHouseList(Buy(S, decode, msp, args).value, q.sellerHash).None?
      && GetMoney(Buy(S, decode, msp, args).value, q.sellerHash) ==
           Price(S, decode, args) - 1
  {
  }

  /** The buyer's escrow pays the price, and the log gains one entry. */
  lemma EscrowPaysPrice(S: State, decode: string -> Option<MortgageRequest>, msp: string, args: seq<string>)
    requires Buy(S, decode, msp, args).Ok?
    requires
      var q := decode(args[0]).value;
      Escrow(q.buyerHash) !in {q.sellerHash, MoneyTransferKey}
    ensures
      var q := decode(args[0]).value;
      var S' := Buy(S, decode, msp, args).value;
      && GetMoney(S', Escrow(q.buyerHash)) == GetMoney(S, Escrow(q.buyerHash)) - Price(S, decode, args)
      && GetMoney(S', Escrow(q.buyerHash)) >= 0
      && Lookup(S', MoneyTransferKey) == Some(Log(ReadLog(S).value + [TransferEntry(Escrow(q.buyerHash), q.sellerHash, Price(S, decode, args))]))
  {
  }
}
