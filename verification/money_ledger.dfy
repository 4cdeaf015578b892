/** Integer balances of the lending chaincode (getMoney and moveMoney, lines
    2070-2147). A balance is decimal text under "money_" + account; here the
    `money` map is keyed by the account. */
module MoneyLedger {
  import opened Wrappers
  import opened Decimal
  import opened LendingTypes

  /** getMoney: 0 for an absent or empty value, -1 for text that is not an
      integer, the integer otherwise. */
  function GetMoney(L: Ledger, account: string): (n: int)
    ensures account !in L.money || |L.money[account]| == 0 ==> n == 0
    ensures account in L.money && Atoi(L.money[account]).None? && |L.money[account]| > 0 ==> n == -1
    ensures account in L.money && Atoi(L.money[account]).Some? ==> n == Atoi(L.money[account]).value
  {
    if account !in L.money || |L.money[account]| == 0 then 0
    else
      match Atoi(L.money[account])
      case None => -1
      case Some(v) => v
  }

  /** moveMoney(src, dst, sum), reading `pre` and writing into `post`.
      The source is rejected when it reads negative (an unreadable balance
      reads -1) or below `sum`. The destination is read but never checked:
      the second guard re-tests the source, so an unreadable destination
      counts as -1 and ends at sum - 1. */
  function MoveMoney(pre: Ledger, post: Ledger, src: string, dst: string, sum: int): (r: Result<Ledger>)
    ensures r.Ok? <==> GetMoney(pre, src) >= 0 && GetMoney(pre, src) >= sum
    ensures r.Err? ==> r.error == InsufficientFunds
    ensures r.Ok? ==> r.value.properties == post.properties && r.value.requests == post.requests && r.value.queues == post.queues
    ensures r.Ok? ==> GetMoney(r.value, dst) == GetMoney(pre, dst) + sum
    ensures r.Ok? && src != dst ==> GetMoney(r.value, src) == GetMoney(pre, src) - sum
    ensures r.Ok? ==> forall a | a != src && a != dst :: Lookup(r.value.money, a) == Lookup(post.money, a)
  {
    var srcMoney := GetMoney(pre, src);
    :- Need(srcMoney >= 0, InsufficientFunds);
    // Line 2080 tests srcMoney again instead of destMoney; it can no longer fail.
    var destMoney := GetMoney(pre, dst);
    :- Need(srcMoney >= sum, InsufficientFunds);
    Ok(SetBalance(SetBalance(post, src, srcMoney - sum), dst, destMoney + sum))
  }

  /** Writing a balance as decimal text: it reads back as written, and no
      other balance and nothing else in the ledger changes. */
  function SetBalance(L: Ledger, account: string, n: int): (L': Ledger)
    ensures GetMoney(L', account) == n
    ensures L'.properties == L.properties && L'.requests == L.requests && L'.queues == L.queues
    ensures forall a | a != account :: Lookup(L'.money, a) == Lookup(L.money, a)
  {
    AtoiItoa(n);
    L.(money := L.money[account := Itoa(n)])
  }

  /** For two distinct accounts whose balances read, a transfer conserves
      their total; on failure neither balance changes because nothing is
      written at all. */
  lemma MoveMoneyConserves(L: Ledger, src: string, dst: string, sum: int)
    requires src != dst
    requires MoveMoney(L, L, src, dst, sum).Ok?
    ensures GetMoney(MoveMoney(L, L, src, dst, sum).value, src) + GetMoney(MoveMoney(L, L, src, dst, sum).value, dst)
         == GetMoney(L, src) + GetMoney(L, dst)
    ensures GetMoney(MoveMoney(L, L, src, dst, sum).value, src) >= 0
  {
  }

  /** An unreadable destination is not rejected: it becomes sum - 1. */
  lemma MoveMoneyUnreadableDestination(L: Ledger, src: string, dst: string, sum: int)
    requires src != dst
    requires dst in L.money && |L.money[dst]| > 0 && Atoi(L.money[dst]).None?
    requires GetMoney(L, src) >= 0 && GetMoney(L, src) >= sum
    ensures MoveMoney(L, L, src, dst, sum).Ok?
    ensures GetMoney(MoveMoney(L, L, src, dst, sum).value, dst) == sum - 1
  {
  }
}
