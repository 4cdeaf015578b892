/** The queue/index manager: named collections of RequestLink entries
    (addRequestToArray and removeFromRequestArray of the lending chaincode).

    Adding refuses a link whose (UserHash, RequestHash) pair is already queued.
    Removing matches on RequestHash alone, and its loop deletes an element
    in place and then advances its index, so the element that slid into the
    deleted slot is never examined: `SkipRemove` is that behaviour as a
    recursive definition and `RemoveFromRequestArray` is the loop itself. */
module RequestQueues {
  import opened Wrappers
  import opened LendingTypes

  /** Some entry points at request `h` (whoever its user is). */
  predicate HasRequest(xs: seq<RequestLink>, h: string) {
    exists i | 0 <= i < |xs| :: xs[i].requestHash == h
  }

  /** Number of entries pointing at request `h`. */
  function Count(xs: seq<RequestLink>, h: string): nat
  {
    if |xs| == 0 then 0 else (if xs[0].requestHash == h then 1 else 0) + Count(xs[1..], h)
  }

  /** The entries that do not point at request `h`, in order. */
  function Others(xs: seq<RequestLink>, h: string): seq<RequestLink>
  {
    if |xs| == 0 then [] else (if xs[0].requestHash == h then [] else [xs[0]]) + Others(xs[1..], h)
  }

  /** `a` is `b` with some entries deleted, order kept. */
  predicate IsSubsequence<T(==)>(a: seq<T>, b: seq<T>)
    decreases |b|
  {
    |a| == 0 || (|b| > 0 && ((a[0] == b[0] && IsSubsequence(a[1..], b[1..])) || IsSubsequence(a, b[1..])))
  }

  /** What removeFromRequestArray leaves: each examined match is deleted and
      the entry right after it is kept without being examined. */
  function SkipRemove(xs: seq<RequestLink>, h: string): seq<RequestLink>
  {
    if |xs| == 0 then []
    else if xs[0].requestHash == h then (if |xs| == 1 then [] else [xs[1]] + SkipRemove(xs[2..], h))
    else [xs[0]] + SkipRemove(xs[1..], h)
  }

  /** The loop of removeFromRequestArray (lines 1816-1822), run on a decoded queue. */
  method RemoveFromRequestArray(xs: seq<RequestLink>, h: string) returns (ys: seq<RequestLink>, found: bool)
    ensures found <==> HasRequest(xs, h)
    ensures ys == SkipRemove(xs, h)
  {
    ys := xs;
    found := false;
    var i := 0;
    while i < |ys|
      invariant 0 <= i <= |ys| + 1
      invariant Pending(ys, i, h) == SkipRemove(xs, h)
      invariant !found ==> ys == xs && i <= |xs| && forall j | 0 <= j < i :: xs[j].requestHash != h
      invariant found ==> HasRequest(xs, h)
      decreases |ys| + 1 - i
    {
      if h == ys[i].requestHash {
        PendingAfterMatch(ys, i, h);
        if !found {
          assert xs[i].requestHash == h;
        }
        ys := ys[..i] + ys[i + 1..];
        found := true;
      } else {
        PendingAfterOther(ys, i, h);
      }
      i := i + 1;
    }
    assert ys[..|ys|] == ys;
  }

  /** The loop's state: the first `i` entries are settled, the rest is still
      to be run through. */
  function Pending(ys: seq<RequestLink>, i: nat, h: string): seq<RequestLink>
  {
    var k := if i <= |ys| then i else |ys|;
    ys[..k] + SkipRemove(ys[k..], h)
  }

  /** Deleting a match at `i` and moving on to `i + 1` leaves the loop's
      outcome unchanged. */
  lemma PendingAfterMatch(ys: seq<RequestLink>, i: nat, h: string)
    requires i < |ys| && ys[i].requestHash == h
    ensures Pending(ys[..i] + ys[i + 1..], i + 1, h) == Pending(ys, i, h)
  {
    var zs := ys[..i] + ys[i + 1..];
    assert ys[i..][1..] == ys[i + 1..];
    if i + 1 < |ys| {
      assert ys[i..][2..] == ys[i + 2..];
      assert zs[..i + 1] == ys[..i] + [ys[i + 1]];
      assert zs[i + 1..] == ys[i + 2..];
    } else {
      assert zs[..|zs|] == ys[..i];
    }
  }

  /** Stepping over an entry that does not match leaves the loop's outcome
      unchanged. */
  lemma PendingAfterOther(ys: seq<RequestLink>, i: nat, h: string)
    requires i < |ys| && ys[i].requestHash != h
    ensures Pending(ys, i + 1, h) == Pending(ys, i, h)
  {
    assert ys[i..][1..] == ys[i + 1..];
    assert ys[..i + 1] == ys[..i] + [ys[i]];
  }

  lemma {:induction false} SkipRemoveIsSubsequence(xs: seq<RequestLink>, h: string)
    ensures IsSubsequence(SkipRemove(xs, h), xs)
    decreases |xs|
  {
    if |xs| == 0 {
    } else if xs[0].requestHash == h {
      if |xs| > 1 {
        SkipRemoveIsSubsequence(xs[2..], h);
        var s := SkipRemove(xs, h);
        assert s[1..] == SkipRemove(xs[2..], h);
        assert xs[1..][1..] == xs[2..];
        assert IsSubsequence(s, xs[1..]);
      }
    } else {
      SkipRemoveIsSubsequence(xs[1..], h);
      var s := SkipRemove(xs, h);
      assert s[1..] == SkipRemove(xs[1..], h);
    }
  }

  /** Every entry that does not point at `h` survives, in order. */
  lemma {:induction false} SkipRemoveKeepsOthers(xs: seq<RequestLink>, h: string)
    ensures Others(SkipRemove(xs, h), h) == Others(xs, h)
    decreases |xs|
  {
    if |xs| == 0 {
    } else if xs[0].requestHash == h {
      if |xs| > 1 {
        SkipRemoveKeepsOthers(xs[2..], h);
        var s := SkipRemove(xs, h);
        assert s[1..] == SkipRemove(xs[2..], h);
        assert xs[1..][1..] == xs[2..];
      }
    } else {
      SkipRemoveKeepsOthers(xs[1..], h);
      var s := SkipRemove(xs, h);
      assert s[1..] == SkipRemove(xs[1..], h);
    }
  }

  /** At least one entry pointing at `h` is deleted when there is one, and at
      most the matches present are kept. */
  lemma {:induction false} SkipRemoveDropsMatch(xs: seq<RequestLink>, h: string)
    ensures Count(SkipRemove(xs, h), h) <= Count(xs, h)
    ensures HasRequest(xs, h) ==> Count(SkipRemove(xs, h), h) < Count(xs, h)
    ensures !HasRequest(xs, h) ==> SkipRemove(xs, h) == xs
    decreases |xs|
  {
    if |xs| == 0 {
    } else if xs[0].requestHash == h {
      if |xs| > 1 {
        SkipRemoveDropsMatch(xs[2..], h);
        var s := SkipRemove(xs, h);
        assert s[1..] == SkipRemove(xs[2..], h);
        assert xs[1..][1..] == xs[2..];
      }
    } else {
      SkipRemoveDropsMatch(xs[1..], h);
      var s := SkipRemove(xs, h);
      assert s[1..] == SkipRemove(xs[1..], h);
      if HasRequest(xs, h) {
        var i :| 0 <= i < |xs| && xs[i].requestHash == h;
        assert xs[1..][i - 1].requestHash == h;
      } else {
        assert !HasRequest(xs[1..], h) by {
          forall j | 0 <= j < |xs[1..]| ensures xs[1..][j].requestHash != h {
            assert xs[1..][j] == xs[j + 1];
          }
        }
      }
    }
  }

  lemma {:induction false} CountPositive(xs: seq<RequestLink>, h: string)
    ensures HasRequest(xs, h) <==> Count(xs, h) > 0
    decreases |xs|
  {
    if |xs| > 0 {
      CountPositive(xs[1..], h);
      if HasRequest(xs, h) && xs[0].requestHash != h {
        var i :| 0 <= i < |xs| && xs[i].requestHash == h;
        assert xs[1..][i - 1].requestHash == h;
      }
      if HasRequest(xs[1..], h) {
        var i :| 0 <= i < |xs[1..]| && xs[1..][i].requestHash == h;
        assert xs[i + 1].requestHash == h;
      }
    }
  }

  /** With a single entry pointing at `h`, exactly that entry goes. */
  lemma {:induction false} SkipRemoveSingle(xs: seq<RequestLink>, h: string)
    requires Count(xs, h) == 1
    ensures SkipRemove(xs, h) == Others(xs, h)
    ensures Count(SkipRemove(xs, h), h) == 0
    ensures |SkipRemove(xs, h)| == |xs| - 1
    decreases |xs|
  {
    if xs[0].requestHash == h {
      CountPositive(xs[1..], h);
      SkipRemoveDropsMatch(xs[1..], h);
      NoMatchOthers(xs[1..], h);
      if |xs| > 1 {
        assert xs[1..] == [xs[1]] + xs[2..];
        assert xs[1].requestHash != h;
        assert xs[1..][1..] == xs[2..];
        NoMatchOthers(xs[2..], h);
        assert Count(xs[2..], h) == 0;
        CountPositive(xs[2..], h);
        SkipRemoveDropsMatch(xs[2..], h);
      }
    } else {
      SkipRemoveSingle(xs[1..], h);
      var s := SkipRemove(xs, h);
      assert s[1..] == SkipRemove(xs[1..], h);
    }
  }

  lemma {:induction false} NoMatchOthers(xs: seq<RequestLink>, h: string)
    requires Count(xs, h) == 0
    ensures Others(xs, h) == xs
    decreases |xs|
  {
    if |xs| > 0 {
      NoMatchOthers(xs[1..], h);
      assert xs == [xs[0]] + xs[1..];
    }
  }

  /** The element after a deleted match is not examined: of two adjacent
      entries for the same request, the second stays queued. */
  lemma SkipRemoveKeepsAdjacentMatch(a: RequestLink, b: RequestLink)
    requires a.requestHash == b.requestHash
    ensures SkipRemove([a, b], a.requestHash) == [b]
  {
    assert [a, b][2..] == [];
  }

  /** The queue stored under `key`, an absent key reading as empty. */
  function QueueOf(L: Ledger, key: string): seq<RequestLink>
  {
    if key in L.queues && L.queues[key].Decoded? then L.queues[key].value else []
  }

  /** addRequestToArray would accept `link` under `key`. */
  predicate CanEnqueue(L: Ledger, key: string, link: RequestLink) {
    key !in L.queues || (L.queues[key].Decoded? && link !in L.queues[key].value)
  }

  /** removeFromRequestArray would find request `h` under `key`. */
  predicate Queued(L: Ledger, key: string, h: string) {
    key in L.queues && L.queues[key].Decoded? && HasRequest(L.queues[key].value, h)
  }

  /** addRequestToArray on the collection read for `key` (lines 1741-1796). */
  function AddLink(cell: Option<Stored<seq<RequestLink>>>, link: RequestLink): (r: Result<seq<RequestLink>>)
    ensures cell.None? ==> r == Ok([link])
    ensures cell == Some(Garbled) ==> r == Err(Malformed)
    ensures cell.Some? && cell.value.Decoded? ==>
      && (r.Err? <==> link in cell.value.value)
      && (r.Err? ==> r.error == Duplicate)
      && (r.Ok? ==> r.value == cell.value.value + [link])
  {
    match cell
    case None => Ok([link])
    case Some(Garbled) => Err(Malformed)
    case Some(Decoded(xs)) =>
      if exists i | 0 <= i < |xs| :: xs[i].userHash == link.userHash && xs[i].requestHash == link.requestHash
      then Err(Duplicate)
      else Ok(xs + [link])
  }

  /** removeFromRequestArray on the collection read for `key` (lines 1798-1840):
      fails on an absent key, an undecodable one, or when no entry points at
      the link's request; the link's UserHash plays no part. */
  function RemoveLink(cell: Option<Stored<seq<RequestLink>>>, link: RequestLink): (r: Result<seq<RequestLink>>)
    ensures r.Ok? <==> cell.Some? && cell.value.Decoded? && HasRequest(cell.value.value, link.requestHash)
    ensures r.Ok? ==>
      && IsSubsequence(r.value, cell.value.value)
      && Others(r.value, link.requestHash) == Others(cell.value.value, link.requestHash)
      && Count(r.value, link.requestHash) < Count(cell.value.value, link.requestHash)
    ensures r.Ok? && Count(cell.value.value, link.requestHash) == 1 ==>
      r.value == Others(cell.value.value, link.requestHash) && |r.value| == |cell.value.value| - 1
    ensures r.Err? ==> r.error == (if cell == Some(Garbled) then Malformed else NotQueued)
  {
    match cell
    case None => Err(NotQueued)
    case Some(Garbled) => Err(Malformed)
    case Some(Decoded(xs)) =>
      if HasRequest(xs, link.requestHash) then
        SkipRemoveIsSubsequence(xs, link.requestHash);
        SkipRemoveKeepsOthers(xs, link.requestHash);
        SkipRemoveDropsMatch(xs, link.requestHash);
        if Count(xs, link.requestHash) == 1 then
          SkipRemoveSingle(xs, link.requestHash);
          Ok(SkipRemove(xs, link.requestHash))
        else
          Ok(SkipRemove(xs, link.requestHash))
      else
        Err(NotQueued)
  }

  /** addRequestToArray against the invocation's starting state `pre`, its
      write landing in `post`. */
  function Enqueue(pre: Ledger, post: Ledger, key: string, link: RequestLink): (r: Result<Ledger>)
    ensures r.Ok? <==> CanEnqueue(pre, key, link)
    ensures r.Ok? ==> r.value == post.(queues := post.queues[key := Decoded(QueueOf(pre, key) + [link])])
  {
    var q :- AddLink(Lookup(pre.queues, key), link);
    assert key !in pre.queues ==> QueueOf(pre, key) + [link] == [link];
    Ok(post.(queues := post.queues[key := Decoded(q)]))
  }

  /** removeFromRequestArray against `pre`, its write landing in `post`. */
  function Dequeue(pre: Ledger, post: Ledger, key: string, link: RequestLink): (r: Result<Ledger>)
    ensures r.Ok? <==> Queued(pre, key, link.requestHash)
    ensures r.Ok? ==> r.value == post.(queues := post.queues[key := Decoded(SkipRemove(QueueOf(pre, key), link.requestHash))])
  {
    var q :- RemoveLink(Lookup(pre.queues, key), link);
    Ok(post.(queues := post.queues[key := Decoded(q)]))
  }
}
