/** The per-buyer request collections (getRequest and addOrUpdateRequest of
    the lending chaincode, lines 1869-1948). A buyer's requests are one JSON
    array; a read returns the first request with the asked-for hash, a write
    overwrites every request with the written hash, or appends it if none. */
module RequestStore {
  import opened Wrappers
  import opened LendingTypes
  import opened Sequences

  predicate HasHash(xs: seq<Request>, h: string) {
    exists i | 0 <= i < |xs| :: xs[i].hash == h
  }

  /** A request's key in every lookup by hash. */
  function RequestHash(r: Request): string { r.hash }

  /** Index of the first request with hash `h` (the loop of lines 1892-1896). */
  function FirstIndex(xs: seq<Request>, h: string): (r: Option<nat>)
    ensures r.None? <==> !HasHash(xs, h)
    ensures r.Some? ==> r.value < |xs| && xs[r.value].hash == h
    ensures r.Some? ==> forall j | 0 <= j < r.value :: xs[j].hash != h
  {
    FirstMatch(xs, RequestHash, h)
  }

  /** First request with hash `h`, if any. */
  function Find(xs: seq<Request>, h: string): Option<Request>
  {
    match FirstIndex(xs, h)
    case None => None
    case Some(i) => Some(xs[i])
  }

  /** The collection after addOrUpdateRequest(r): every request with r's hash
      replaced by r, or r appended when there was none. */
  function Upsert(xs: seq<Request>, r: Request): (ys: seq<Request>)
    ensures |ys| == if HasHash(xs, r.hash) then |xs| else |xs| + 1
    ensures forall i | 0 <= i < |xs| :: ys[i] == (if xs[i].hash == r.hash then r else xs[i])
    ensures !HasHash(xs, r.hash) ==> ys[|xs|] == r
  {
    var replaced := seq(|xs|, i requires 0 <= i < |xs| => if xs[i].hash == r.hash then r else xs[i]);
    if exists i | 0 <= i < |xs| :: xs[i].hash == r.hash then replaced else replaced + [r]
  }

  /** After writing r, reading r's hash gives r back. */
  lemma UpsertThenFind(xs: seq<Request>, r: Request)
    ensures Find(Upsert(xs, r), r.hash) == Some(r)
  {
    var ys := Upsert(xs, r);
    assert ys[if HasHash(xs, r.hash) then FirstIndex(xs, r.hash).value else |xs|].hash == r.hash;
  }

  /** Writing r leaves what a read of any other hash returns unchanged. */
  lemma UpsertKeepsOthers(xs: seq<Request>, r: Request, h: string)
    requires h != r.hash
    ensures Find(Upsert(xs, r), h) == Find(xs, h)
  {
    var ys := Upsert(xs, r);
    FirstIndexAgree(xs, ys, h);
    if FirstIndex(xs, h).Some? {
      var i := FirstIndex(xs, h).value;
      assert ys[i] == xs[i];
    }
  }

  /** Two collections in which the same positions hold hash `h` (the longer
      one nowhere past the shorter's end) have the same first match. */
  lemma FirstIndexAgree(xs: seq<Request>, ys: seq<Request>, h: string)
    requires |xs| <= |ys|
    requires forall i | 0 <= i < |xs| :: (ys[i].hash == h) == (xs[i].hash == h)
    requires forall i | |xs| <= i < |ys| :: ys[i].hash != h
    ensures FirstIndex(ys, h) == FirstIndex(xs, h)
  {
    if HasHash(xs, h) {
      var i := FirstIndex(xs, h).value;
      FirstIndexUnique(ys, h, i);
    } else {
      assert !HasHash(ys, h) by {
        forall j | 0 <= j < |ys| ensures ys[j].hash != h {
          if j < |xs| {
            assert xs[j].hash != h;
          }
        }
      }
    }
  }

  /** The first match is the position that matches with none before it. */
  lemma FirstIndexUnique(xs: seq<Request>, h: string, i: nat)
    requires i < |xs| && xs[i].hash == h
    requires forall j | 0 <= j < i :: xs[j].hash != h
    ensures FirstIndex(xs, h) == Some(i)
  {
    assert HasHash(xs, h);
  }

  /** The buyer's collection may be written: it is absent or decodes. */
  predicate CanStore(L: Ledger, buyer: string) {
    buyer !in L.requests || L.requests[buyer].Decoded?
  }

  /** The requests stored for `buyer`, an absent key reading as none. */
  function RequestsOf(L: Ledger, buyer: string): seq<Request>
  {
    if buyer in L.requests && L.requests[buyer].Decoded? then L.requests[buyer].value else []
  }

  /** A request with hash `h` is readable from `buyer`'s collection. */
  predicate Readable(L: Ledger, buyer: string, h: string) {
    buyer in L.requests && L.requests[buyer].Decoded? && HasHash(L.requests[buyer].value, h)
  }

  /** getRequest(user, h). */
  function GetRequest(L: Ledger, user: string, h: string): (r: Result<Request>)
    ensures r.Ok? <==> Readable(L, user, h)
    ensures r.Ok? ==> r.value.hash == h && Find(L.requests[user].value, h) == Some(r.value)
    ensures r.Err? ==> r.error == (if user in L.requests && L.requests[user].Garbled? then Malformed else NotFound)
  {
    var cell: Option<Stored<seq<Request>>> := Lookup(L.requests, user);
    match cell
    case None => Err(NotFound)
    case Some(Garbled) => Err(Malformed)
    case Some(Decoded(xs)) =>
      match Find(xs, h)
      case None => Err(NotFound)
      case Some(found) => Ok(found)
  }

  /** addOrUpdateRequest(r), reading `pre` and writing into `post`. */
  function PutRequest(pre: Ledger, post: Ledger, r: Request): (res: Result<Ledger>)
    ensures res.Ok? <==> CanStore(pre, r.buyerHash)
    ensures res.Ok? ==> res.value == post.(requests := post.requests[r.buyerHash := Decoded(Upsert(RequestsOf(pre, r.buyerHash), r))])
    ensures res.Err? ==> res.error == Malformed
  {
    var cell: Option<Stored<seq<Request>>> := Lookup(pre.requests, r.buyerHash);
    match cell
    case Some(Garbled) => Err(Malformed)
    case _ => Ok(post.(requests := post.requests[r.buyerHash := Decoded(Upsert(RequestsOf(pre, r.buyerHash), r))]))
  }

  /** The round trip of the store: after addOrUpdateRequest(r), getRequest
      (r.BuyerHash, r.Hash) returns r; other hashes of that buyer read as
      before; other buyers' collections are untouched; and the collection
      grows by one exactly when no request had r's hash. */
  lemma PutThenGet(L: Ledger, r: Request)
    requires PutRequest(L, L, r).Ok?
    ensures GetRequest(PutRequest(L, L, r).value, r.buyerHash, r.hash) == Ok(r)
    ensures forall h | h != r.hash :: GetRequest(PutRequest(L, L, r).value, r.buyerHash, h).Ok? ==> GetRequest(PutRequest(L, L, r).value, r.buyerHash, h) == GetRequest(L, r.buyerHash, h)
    ensures forall h | h != r.hash :: GetRequest(L, r.buyerHash, h).Ok? ==> GetRequest(PutRequest(L, L, r).value, r.buyerHash, h) == GetRequest(L, r.buyerHash, h)
    ensures forall b | b != r.buyerHash :: Lookup(PutRequest(L, L, r).value.requests, b) == Lookup(L.requests, b)
    ensures |RequestsOf(PutRequest(L, L, r).value, r.buyerHash)| ==
      |RequestsOf(L, r.buyerHash)| + (if HasHash(RequestsOf(L, r.buyerHash), r.hash) then 0 else 1)
  {
    var L' := PutRequest(L, L, r).value;
    var xs := RequestsOf(L, r.buyerHash);
    UpsertThenFind(xs, r);
    forall h | h != r.hash
      ensures GetRequest(L', r.buyerHash, h).Ok? ==> GetRequest(L', r.buyerHash, h) == GetRequest(L, r.buyerHash, h)
      ensures GetRequest(L, r.buyerHash, h).Ok? ==> GetRequest(L', r.buyerHash, h) == GetRequest(L, r.buyerHash, h)
    {
      UpsertKeepsOthers(xs, r, h);
      FindSome(Upsert(xs, r), h);
      FindSome(xs, h);
    }
  }

  lemma FindSome(xs: seq<Request>, h: string)
    ensures Find(xs, h).Some? <==> HasHash(xs, h)
  {
  }

  /** Every stored request carries one of the twelve status literals. */
  predicate StatusesKnown(L: Ledger) {
    forall b | b in L.requests && L.requests[b].Decoded? ::
      forall i | 0 <= i < |L.requests[b].value| :: L.requests[b].value[i].status in Statuses
  }

  /** What one invocation may do to the request collections: no readable
      request disappears, and no status outside the twelve literals appears. */
  ghost predicate RequestsEvolve(L: Ledger, L': Ledger) {
    && (forall b, h | Readable(L, b, h) :: Readable(L', b, h))
    && (StatusesKnown(L) ==> StatusesKnown(L'))
  }

  /** A single addOrUpdateRequest of a request with a known status, on top of
      writes that left the request collections alone, keeps the store's
      invariant and makes the written request readable. */
  lemma PutRequestEvolves(pre: Ledger, post: Ledger, r: Request)
    requires post.requests == pre.requests
    requires r.status in Statuses
    requires PutRequest(pre, post, r).Ok?
    ensures RequestsEvolve(pre, PutRequest(pre, post, r).value)
    ensures GetRequest(PutRequest(pre, post, r).value, r.buyerHash, r.hash) == Ok(r)
  {
    var xs := RequestsOf(pre, r.buyerHash);
    var ys := Upsert(xs, r);
    var L' := PutRequest(pre, post, r).value;
    UpsertThenFind(xs, r);
    forall b, h | Readable(pre, b, h)
      ensures Readable(L', b, h)
    {
      if b == r.buyerHash {
        var i :| 0 <= i < |xs| && xs[i].hash == h;
        assert ys[i].hash == h;
      }
    }
    if StatusesKnown(pre) {
      forall i | 0 <= i < |ys|
        ensures ys[i].status in Statuses
      {
        if i < |xs| {
          assert ys[i] == r || ys[i] == xs[i];
        }
      }
    }
  }

  lemma RequestsEvolveTransitive(L0: Ledger, L1: Ledger, L2: Ledger)
    requires RequestsEvolve(L0, L1) && RequestsEvolve(L1, L2)
    ensures RequestsEvolve(L0, L2)
  {
  }
}
