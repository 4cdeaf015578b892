/** Property lists of the lending chaincode. Each owner's houses are one JSON
    array stored under the owner's identity; the houses on the market are one
    more array under `properties4sale`. */
module PropertyStore {
  import opened Wrappers
  import opened LendingTypes
  import opened Sequences

  /** A property's key in every lookup by hash. */
  function PropertyHash(p: Property): string { p.hash }

  /** Index of the LAST for-sale entry with the given hash and seller: buy's
      loop (lines 1402-1407) overwrites its index on every match. */
  function LastSaleIndex(xs: seq<Property>, h: string, seller: string): (r: Option<nat>)
    ensures r.None? <==> forall i | 0 <= i < |xs| :: !(xs[i].hash == h && xs[i].sellerHash == seller)
    ensures r.Some? ==> r.value < |xs| && xs[r.value].hash == h && xs[r.value].sellerHash == seller
    ensures r.Some? ==> forall j | r.value < j < |xs| :: !(xs[j].hash == h && xs[j].sellerHash == seller)
    decreases |xs|
  {
    if |xs| == 0 then None
    else if xs[|xs| - 1].hash == h && xs[|xs| - 1].sellerHash == seller then Some(|xs| - 1)
    else LastSaleIndex(xs[..|xs| - 1], h, seller)
  }

  /** `xs` without its element at `i`. */
  function RemoveAt<T>(xs: seq<T>, i: nat): (ys: seq<T>)
    requires i < |xs|
    ensures |ys| == |xs| - 1
    ensures multiset(ys) + multiset{xs[i]} == multiset(xs)
    ensures forall j | 0 <= j < i :: ys[j] == xs[j]
    ensures forall j | i <= j < |ys| :: ys[j] == xs[j + 1]
  {
    assert xs == xs[..i] + [xs[i]] + xs[i + 1..];
    xs[..i] + xs[i + 1..]
  }

  /** What getProperty reports: an absent key yields no list and no error. */
  datatype PropertyHit = NoList | Hit(property: Property, index: nat, list: seq<Property>)

  /** getProperty(owner, h) (lines 2149-2177). */
  function GetProperty(L: Ledger, owner: string, h: string): (r: Result<PropertyHit>)
    ensures r == Ok(NoList) <==> owner !in L.properties
    ensures r.Ok? && r.value.Hit? ==>
      && owner in L.properties && L.properties[owner] == Decoded(r.value.list)
      && r.value.index < |r.value.list| && r.value.list[r.value.index] == r.value.property
      && r.value.property.hash == h
      && forall j | 0 <= j < r.value.index :: r.value.list[j].hash != h
    ensures r.Err? <==> (owner in L.properties &&
      (L.properties[owner].Garbled? || forall i | 0 <= i < |L.properties[owner].value| :: L.properties[owner].value[i].hash != h))
  {
    var cell: Option<Stored<seq<Property>>> := Lookup(L.properties, owner);
    match cell
    case None => Ok(NoList)
    case Some(Garbled) => Err(Malformed)
    case Some(Decoded(xs)) =>
      match FirstMatch(xs, PropertyHash, h)
      case None => Err(NotFound)
      case Some(i) => Ok(Hit(xs[i], i, xs))
  }

  /** getPropertyAndRemove(owner, h) (lines 2179-2199), reading `pre` and
      writing into `post`. With no list under the owner, getProperty returns
      a nil slice and no error, and slicing it from index 1 panics. */
  function TakeProperty(pre: Ledger, post: Ledger, owner: string, h: string): (r: Result<(Property, Ledger)>)
    ensures r.Ok? <==> (owner in pre.properties && pre.properties[owner].Decoded? &&
      exists i | 0 <= i < |pre.properties[owner].value| :: pre.properties[owner].value[i].hash == h)
    ensures owner !in pre.properties ==> r == Err(Panic)
    ensures r.Ok? ==>
      var xs := pre.properties[owner].value;
      var i := FirstMatch(xs, PropertyHash, h).value;
      && r.value.0 == xs[i]
      && r.value.0.hash == h
      && r.value.1 == post.(properties := post.properties[owner := Decoded(RemoveAt(xs, i))])
  {
    var hit :- GetProperty(pre, owner, h);
    match hit
    case NoList => Err(Panic)
    case Hit(p, i, xs) => Ok((p, post.(properties := post.properties[owner := Decoded(RemoveAt(xs, i))])))
  }

  /** advertise's update of the seller's own list (lines 361-408): a first
      house starts the list, later ones are appended without a duplicate check. */
  function AppendOwned(cell: Option<Stored<seq<Property>>>, p: Property): (r: Result<seq<Property>>)
    ensures r.Ok? <==> cell.None? || cell.value.Decoded?
    ensures r.Ok? ==> r.value == (if cell.None? then [] else cell.value.value) + [p]
  {
    match cell
    case None => Ok([p])
    case Some(Garbled) => Err(Malformed)
    case Some(Decoded(xs)) => Ok(xs + [p])
  }

  /** advertise's update of properties4sale (lines 410-466): refused when a
      house with the same hash is already on the market. */
  function AddForSale(cell: Option<Stored<seq<Property>>>, p: Property): (r: Result<seq<Property>>)
    ensures r.Ok? <==> cell.None? || (cell.value.Decoded? && forall i | 0 <= i < |cell.value.value| :: cell.value.value[i].hash != p.hash)
    ensures r.Ok? ==> r.value == (if cell.None? then [] else cell.value.value) + [p]
    ensures r.Err? && cell.Some? && cell.value.Decoded? ==> r.error == Duplicate
  {
    match cell
    case None => Ok([p])
    case Some(Garbled) => Err(Malformed)
    case Some(Decoded(xs)) =>
      if exists i | 0 <= i < |xs| :: xs[i].hash == p.hash then Err(Duplicate) else Ok(xs + [p])
  }

  /** buy's removal from properties4sale (lines 1385-1423). An absent key is an
      unmarshal error (json.Unmarshal of no bytes), and the entry removed is the
      last one matching both the property hash and the seller. */
  function RemoveForSale(cell: Option<Stored<seq<Property>>>, h: string, seller: string): (r: Result<seq<Property>>)
    ensures r.Ok? <==> (cell.Some? && cell.value.Decoded? &&
      exists i | 0 <= i < |cell.value.value| :: cell.value.value[i].hash == h && cell.value.value[i].sellerHash == seller)
    ensures r.Ok? ==>
      var xs := cell.value.value;
      var i := LastSaleIndex(xs, h, seller).value;
      && r.value == RemoveAt(xs, i)
      && multiset(r.value) + multiset{xs[i]} == multiset(xs)
      && xs[i].hash == h && xs[i].sellerHash == seller
  {
    match cell
    case None => Err(Malformed)
    case Some(Garbled) => Err(Malformed)
    case Some(Decoded(xs)) =>
      match LastSaleIndex(xs, h, seller)
      case None => Err(NotFound)
      case Some(i) => Ok(RemoveAt(xs, i))
  }

  /** The list stored under `owner`, an absent or undecodable key reading as none. */
  function ListOf(L: Ledger, owner: string): seq<Property>
  {
    if owner in L.properties && L.properties[owner].Decoded? then L.properties[owner].value else []
  }

  /** The list under `owner` can be read: it is absent or decodes. */
  predicate ListReadable(L: Ledger, owner: string) {
    owner !in L.properties || L.properties[owner].Decoded?
  }

  /** Some house with hash `h` sold by `seller` is on the market. */
  predicate ForSaleBy(L: Ledger, h: string, seller: string) {
    && PropertiesForSale in L.properties && L.properties[PropertiesForSale].Decoded?
    && exists i | 0 <= i < |L.properties[PropertiesForSale].value| ::
         L.properties[PropertiesForSale].value[i].hash == h && L.properties[PropertiesForSale].value[i].sellerHash == seller
  }

  /** `owner` holds a house with hash `h`. */
  predicate Owns(L: Ledger, owner: string, h: string) {
    && owner in L.properties && L.properties[owner].Decoded?
    && exists i | 0 <= i < |L.properties[owner].value| :: L.properties[owner].value[i].hash == h
  }

  /** advertise may put a house with hash `h` on the market: the list is
      absent, or it decodes and holds no house with that hash. */
  predicate Listable(L: Ledger, h: string) {
    PropertiesForSale !in L.properties ||
      (L.properties[PropertiesForSale].Decoded? &&
       forall i | 0 <= i < |L.properties[PropertiesForSale].value| :: L.properties[PropertiesForSale].value[i].hash != h)
  }
}
