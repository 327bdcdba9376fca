/**
 * The listing store (`ListingsDb`): three logical tables kept in one sled tree under the key
 * prefixes `listing:{id}` (the records), `listing_by_origin:{origin}` (origin -> id) and
 * `listing_by_seller:{seller}:{id}` (the seller's history), and the state machine
 * Active -> Cancelled | Sold that the mutating operations drive.
 *
 * The store's contents are the value `Store`; each mutating operation has a step function on
 * it (CreateStep, UpdateStep, CancelStep, MarkSoldStep) and the class `ListingsDb` keeps the
 * three tables as fields whose methods are proved to perform exactly those steps.
 */
module Listings {
  import opened Wrappers
  import opened Models

  datatype Store = Store(
    listings: map<Id, Listing>,
    byOrigin: map<Origin, Id>,
    bySeller: set<(Address, Id)>)

  /** The errors `cancel_listing` and `mark_listing_sold` bail out with. */
  datatype StoreError = NotAuthorized | NotActive

  function StoreErrorMessage(e: StoreError): string {
    match e
    case NotAuthorized => "Not authorized to cancel this listing"
    case NotActive => "Listing is not active"
  }

  /** How far (in thousandths of a percent) a requested tip may be from a tier and still snap to it. */
  const TIP_SNAP: nat := 10

  function Distance(a: int, b: int): nat {
    if a < b then b - a else a - b
  }

  /**
   * The store's own tip normalisation: exactly 0 stays 0, a tip within 0.01% of 2.5% or 5%
   * snaps to that tier, and anything else becomes 0. It never rejects.
   */
  function NormalizeTip(tipPercent: int): (tier: int)
    ensures IsTipTier(tier)
    ensures IsTipTier(tipPercent) ==> tier == tipPercent
    ensures tier == TIP_TIER_LOW <==> Distance(tipPercent, TIP_TIER_LOW) <= TIP_SNAP
    ensures tier == TIP_TIER_HIGH <==> Distance(tipPercent, TIP_TIER_HIGH) <= TIP_SNAP
  {
    if tipPercent == 0 then 0
    else if Distance(tipPercent, TIP_TIER_LOW) <= TIP_SNAP then TIP_TIER_LOW
    else if Distance(tipPercent, TIP_TIER_HIGH) <= TIP_SNAP then TIP_TIER_HIGH
    else 0
  }

  /** The fee arithmetic of a create does not overflow. */
  predicate Creatable(request: CreateListingRequest) {
    FeesFitU64(request.sellerWantsSatoshis, NormalizeTip(request.tipPercent))
  }

  /** The record `create_listing` builds; `now` stands for both clock reads. */
  function NewListing(request: CreateListingRequest, id: Id, now: Timestamp): (listing: Listing)
    requires Creatable(request)
  {
    Listing(
      id := id,
      origin := request.origin,
      sellerAddress := request.sellerAddress,
      sellerOrdAddress := request.sellerOrdAddress,
      fees := Calculate(request.sellerWantsSatoshis, NormalizeTip(request.tipPercent)),
      status := Active,
      psbtHex := None,
      listingUtxo := None,
      ordinalUtxo := request.ordinalUtxo,
      createdAt := now,
      updatedAt := now,
      soldAt := None,
      buyerAddress := None,
      purchaseTxid := None)
  }

  // ---------------------------------------------------------------------------
  // Point lookups
  // ---------------------------------------------------------------------------

  function GetListing(st: Store, id: Id): Option<Listing> {
    if id in st.listings then Some(st.listings[id]) else None
  }

  /** Follows the origin index; a key whose id has no record reads as absent. */
  function GetListingByOrigin(st: Store, origin: Origin): Option<Listing> {
    if origin in st.byOrigin then GetListing(st, st.byOrigin[origin]) else None
  }

  function IsOriginListed(st: Store, origin: Origin): bool {
    GetListingByOrigin(st, origin).Some?
  }

  // ---------------------------------------------------------------------------
  // Mutations, as steps on the store's value
  // ---------------------------------------------------------------------------

  /** Raw `create_listing`: writes the record and both index keys, checking nothing. */
  function CreateStep(st: Store, request: CreateListingRequest, id: Id, now: Timestamp): (Store, Listing)
    requires Creatable(request)
  {
    var listing := NewListing(request, id, now);
    (Store(st.listings[listing.id := listing],
           st.byOrigin[listing.origin := listing.id],
           st.bySeller + {(listing.sellerAddress, listing.id)}),
     listing)
  }

  /** `update_listing`: overwrites the record under its own id and touches no index. */
  function UpdateStep(st: Store, listing: Listing): Store {
    st.(listings := st.listings[listing.id := listing])
  }

  /**
   * `cancel_listing`: absent -> Ok(None); wrong ordinal address -> NotAuthorized (checked before
   * the status); not Active -> NotActive; otherwise the record becomes Cancelled and the origin
   * key of the record's origin is removed, whichever id it points at.
   */
  function CancelStep(st: Store, id: Id, sellerOrdAddress: Address, now: Timestamp)
    : (Store, Result<Option<Listing>, StoreError>)
  {
    match GetListing(st, id)
    case None => (st, Ok(None))
    case Some(listing) =>
      if listing.sellerOrdAddress != sellerOrdAddress then (st, Err(NotAuthorized))
      else if listing.status != Active then (st, Err(NotActive))
      else
        var cancelled := listing.(status := Cancelled, updatedAt := now);
        var updated := UpdateStep(st, cancelled);
        (updated.(byOrigin := updated.byOrigin - {cancelled.origin}), Ok(Some(cancelled)))
  }

  /**
   * `mark_listing_sold`: absent -> Ok(None); not Active -> NotActive; otherwise status, sale
   * time, buyer and purchase txid are set together and the origin key is removed.
   */
  function MarkSoldStep(st: Store, id: Id, buyerAddress: Address, purchaseTxid: string, now: Timestamp)
    : (Store, Result<Option<Listing>, StoreError>)
  {
    match GetListing(st, id)
    case None => (st, Ok(None))
    case Some(listing) =>
      if listing.status != Active then (st, Err(NotActive))
      else
        var sold := listing.(status := Sold, soldAt := Some(now), buyerAddress := Some(buyerAddress),
                             purchaseTxid := Some(purchaseTxid), updatedAt := now);
        var updated := UpdateStep(st, sold);
        (updated.(byOrigin := updated.byOrigin - {sold.origin}), Ok(Some(sold)))
  }

  // ---------------------------------------------------------------------------
  // Invariants of the three tables
  // ---------------------------------------------------------------------------

  /** Every record is stored under its own id (every write keys by `listing.id`). */
  ghost predicate KeysMatch(st: Store) {
    forall id | id in st.listings :: st.listings[id].id == id
  }

  /** The origin index maps `o` to `id` exactly when `id` is an Active listing of origin `o`. */
  ghost predicate OriginIndexed(st: Store) {
    && (forall o | o in st.byOrigin ::
          st.byOrigin[o] in st.listings
          && st.listings[st.byOrigin[o]].status == Active
          && st.listings[st.byOrigin[o]].origin == o)
    && (forall id | id in st.listings && st.listings[id].status == Active ::
          st.listings[id].origin in st.byOrigin && st.byOrigin[st.listings[id].origin] == id)
  }

  /** The seller index holds (seller, id) for every record, of every status, and nothing else. */
  ghost predicate SellerIndexed(st: Store) {
    && (forall id | id in st.listings :: (st.listings[id].sellerAddress, id) in st.bySeller)
    && (forall p | p in st.bySeller :: p.1 in st.listings && st.listings[p.1].sellerAddress == p.0)
  }

  ghost predicate Consistent(st: Store) {
    KeysMatch(st) && OriginIndexed(st) && SellerIndexed(st)
  }

  function ActiveIds(st: Store): set<Id> {
    set id | id in st.listings && st.listings[id].status == Active
  }

  /** `listing` is the stored, Active record under its own id. */
  ghost predicate IsActiveRecord(st: Store, listing: Listing) {
    listing.id in st.listings && st.listings[listing.id] == listing && listing.status == Active
  }

  /** The origin index, read as the iff it is meant to be. */
  lemma OriginIndexIff(st: Store, o: Origin, id: Id)
    requires OriginIndexed(st)
    ensures (o in st.byOrigin && st.byOrigin[o] == id)
        <==> (id in st.listings && st.listings[id].status == Active && st.listings[id].origin == o)
  {
  }

  /** With the index exact, at most one Active listing exists per origin. */
  lemma OneActivePerOrigin(st: Store, a: Id, b: Id)
    requires OriginIndexed(st)
    requires a in st.listings && st.listings[a].status == Active
    requires b in st.listings && st.listings[b].status == Active
    requires st.listings[a].origin == st.listings[b].origin
    ensures a == b
  {
  }

  /** `is_origin_listed` answers "is there an Active listing of this origin" on a consistent store. */
  lemma OriginListedIffActive(st: Store, o: Origin)
    requires Consistent(st)
    ensures IsOriginListed(st, o)
        <==> exists id :: id in st.listings && st.listings[id].status == Active && st.listings[id].origin == o
  {
    if IsOriginListed(st, o) {
      var id := st.byOrigin[o];
      assert id in st.listings && st.listings[id].status == Active && st.listings[id].origin == o;
    }
  }

  /** A freshly created database holds no listings and no index entries, and is consistent. */
  lemma FreshStoreConsistent()
    ensures Consistent(Store(map[], map[], {}))
    ensures ActiveIds(Store(map[], map[], {})) == {}
  {
  }

  // ---------------------------------------------------------------------------
  // What each step does
  // ---------------------------------------------------------------------------

  /** After a create, the record and both index entries are there; no other record changed. */
  lemma CreateStepEffect(st: Store, request: CreateListingRequest, id: Id, now: Timestamp)
    requires Creatable(request)
    ensures var (st', listing) := CreateStep(st, request, id, now);
      && listing.id == id && listing.origin == request.origin
      && listing.status == Active
      && listing.fees == Calculate(request.sellerWantsSatoshis, NormalizeTip(request.tipPercent))
      && listing.soldAt.None? && listing.buyerAddress.None? && listing.purchaseTxid.None?
      && GetListing(st', id) == Some(listing)
      && GetListingByOrigin(st', request.origin) == Some(listing)
      && (request.sellerAddress, id) in st'.bySeller
      && (forall other | other != id :: GetListing(st', other) == GetListing(st, other))
  {
  }

  /** A create of an origin that is not listed keeps all three tables consistent. */
  lemma CreatePreservesWhenUnlisted(st: Store, request: CreateListingRequest, id: Id, now: Timestamp)
    requires Consistent(st) && Creatable(request)
    requires id !in st.listings
    requires !IsOriginListed(st, request.origin)
    ensures Consistent(CreateStep(st, request, id, now).0)
  {
    var (st', listing) := CreateStep(st, request, id, now);
    assert request.origin !in st.byOrigin;
    forall other | other in st'.listings && st'.listings[other].status == Active
      ensures st'.listings[other].origin in st'.byOrigin && st'.byOrigin[st'.listings[other].origin] == other
    {
      if other != id {
        assert st.listings[other].origin != request.origin;
      }
    }
  }

  /**
   * Raw create does not check the origin index: over an origin that is already listed it leaves
   * two Active listings of that origin, and the older one drops out of the index.
   */
  lemma CreateOverListedBreaksIndex(st: Store, request: CreateListingRequest, id: Id, now: Timestamp)
    requires Consistent(st) && Creatable(request)
    requires id !in st.listings
    requires IsOriginListed(st, request.origin)
    ensures var st' := CreateStep(st, request, id, now).0;
      var previous := st.byOrigin[request.origin];
      && previous != id
      && st'.listings[previous].status == Active && st'.listings[previous].origin == request.origin
      && st'.listings[id].status == Active && st'.listings[id].origin == request.origin
      && !OriginIndexed(st')
  {
    var st' := CreateStep(st, request, id, now).0;
    var previous := st.byOrigin[request.origin];
    assert st'.listings[previous] == st.listings[previous];
    assert st'.byOrigin[request.origin] == id;
  }

  /** `update_listing` rewrites the one record and leaves both indices as they were. */
  lemma UpdateStepEffect(st: Store, listing: Listing)
    ensures UpdateStep(st, listing).byOrigin == st.byOrigin
    ensures UpdateStep(st, listing).bySeller == st.bySeller
    ensures GetListing(UpdateStep(st, listing), listing.id) == Some(listing)
    ensures forall other | other != listing.id ::
      GetListing(UpdateStep(st, listing), other) == GetListing(st, other)
  {
  }

  /** Taking an Active listing out of Active by `update_listing` leaves a stale origin key. */
  lemma UpdateCanBreakIndex(st: Store, listing: Listing)
    requires Consistent(st)
    requires listing.id in st.listings && st.listings[listing.id].status == Active
    requires listing.status != Active
    ensures !OriginIndexed(UpdateStep(st, listing))
  {
    var o := st.listings[listing.id].origin;
    assert o in st.byOrigin && st.byOrigin[o] == listing.id;
  }

  /** The outcomes of `cancel_listing`, in the order the source checks them. */
  lemma CancelStepOutcomes(st: Store, id: Id, sellerOrdAddress: Address, now: Timestamp)
    requires KeysMatch(st)
    ensures var (st', r) := CancelStep(st, id, sellerOrdAddress, now);
      && (id !in st.listings ==> r == Ok(None) && st' == st)
      && (id in st.listings && st.listings[id].sellerOrdAddress != sellerOrdAddress ==>
            r == Err(NotAuthorized) && st' == st)
      && ((id in st.listings && st.listings[id].sellerOrdAddress == sellerOrdAddress
           && st.listings[id].status != Active) ==> r == Err(NotActive) && st' == st)
      && (r.Ok? && r.value.Some? <==>
            id in st.listings && st.listings[id].sellerOrdAddress == sellerOrdAddress
            && st.listings[id].status == Active)
      && (r.Ok? && r.value.Some? ==>
            var before := st.listings[id];
            && r.value.value == before.(status := Cancelled, updatedAt := now)
            && st'.listings == st.listings[id := r.value.value]
            && st'.byOrigin == st.byOrigin - {before.origin}
            && st'.bySeller == st.bySeller
            && !IsOriginListed(st', before.origin))
  {
  }

  /** Cancel never succeeds twice on the same listing, whoever asks. */
  lemma CancelNeverTwice(st: Store, id: Id, owner: Address, caller: Address, now: Timestamp, later: Timestamp)
    requires KeysMatch(st)
    requires CancelStep(st, id, owner, now).1.Ok?
    requires CancelStep(st, id, owner, now).1.value.Some?
    ensures CancelStep(CancelStep(st, id, owner, now).0, id, caller, later).1.Err?
  {
  }

  /** A successful cancel keeps the three tables consistent. */
  lemma CancelPreservesConsistent(st: Store, id: Id, sellerOrdAddress: Address, now: Timestamp)
    requires Consistent(st)
    ensures Consistent(CancelStep(st, id, sellerOrdAddress, now).0)
  {
    var (st', r) := CancelStep(st, id, sellerOrdAddress, now);
    if r.Ok? && r.value.Some? {
      var before := st.listings[id];
      forall o | o in st'.byOrigin
        ensures st'.byOrigin[o] in st'.listings && st'.listings[st'.byOrigin[o]].status == Active
          && st'.listings[st'.byOrigin[o]].origin == o
      {
        assert o != before.origin;
        assert st.byOrigin[o] != id;
      }
    }
  }

  /** The outcomes of `mark_listing_sold`. */
  lemma MarkSoldStepOutcomes(st: Store, id: Id, buyer: Address, txid: string, now: Timestamp)
    requires KeysMatch(st)
    ensures var (st', r) := MarkSoldStep(st, id, buyer, txid, now);
      && (id !in st.listings ==> r == Ok(None) && st' == st)
      && (id in st.listings && st.listings[id].status != Active ==> r == Err(NotActive) && st' == st)
      && (r.Ok? && r.value.Some? <==> id in st.listings && st.listings[id].status == Active)
      && (r.Ok? && r.value.Some? ==>
            var before := st.listings[id];
            && r.value.value == before.(status := Sold, soldAt := Some(now), buyerAddress := Some(buyer),
                                        purchaseTxid := Some(txid), updatedAt := now)
            && st'.listings == st.listings[id := r.value.value]
            && st'.byOrigin == st.byOrigin - {before.origin}
            && st'.bySeller == st.bySeller
            && !IsOriginListed(st', before.origin))
  {
  }

  /** A second sale of the same listing fails, and the first sale's record stays as it was. */
  lemma MarkSoldNeverTwice(st: Store, id: Id, buyer: Address, txid: string, now: Timestamp,
                           buyer2: Address, txid2: string, later: Timestamp)
    requires KeysMatch(st)
    requires MarkSoldStep(st, id, buyer, txid, now).1.Ok?
    requires MarkSoldStep(st, id, buyer, txid, now).1.value.Some?
    ensures var st' := MarkSoldStep(st, id, buyer, txid, now).0;
      && MarkSoldStep(st', id, buyer2, txid2, later) == (st', Err(NotActive))
      && st'.listings[id].purchaseTxid == Some(txid)
  {
  }

  /** A successful sale keeps the three tables consistent. */
  lemma MarkSoldPreservesConsistent(st: Store, id: Id, buyer: Address, txid: string, now: Timestamp)
    requires Consistent(st)
    ensures Consistent(MarkSoldStep(st, id, buyer, txid, now).0)
  {
    var (st', r) := MarkSoldStep(st, id, buyer, txid, now);
    if r.Ok? && r.value.Some? {
      var before := st.listings[id];
      forall o | o in st'.byOrigin
        ensures st'.byOrigin[o] in st'.listings && st'.listings[st'.byOrigin[o]].status == Active
          && st'.listings[st'.byOrigin[o]].origin == o
      {
        assert o != before.origin;
        assert st.byOrigin[o] != id;
      }
    }
  }

  /**
   * Cancel removes the origin key of the record it cancels without looking at which id the key
   * holds. After a raw create has put a second Active listing on an origin, cancelling the first
   * one leaves the second Active but no longer listed.
   */
  lemma CancelAfterDuplicateOrphans(st: Store, first: Id, request: CreateListingRequest, id: Id,
                                    now: Timestamp, later: Timestamp)
    requires Consistent(st) && Creatable(request)
    requires first in st.listings && st.listings[first].status == Active
    requires request.origin == st.listings[first].origin
    requires id !in st.listings
    ensures var st1 := CreateStep(st, request, id, now).0;
      var st2 := CancelStep(st1, first, st.listings[first].sellerOrdAddress, later).0;
      && st2.listings[id].status == Active && st2.listings[id].origin == request.origin
      && !IsOriginListed(st2, request.origin)
  {
    var st1 := CreateStep(st, request, id, now).0;
    assert st1.listings[first] == st.listings[first];
  }

  // ---------------------------------------------------------------------------
  // Ordering and paging of query results
  // ---------------------------------------------------------------------------

  /** Newest first: `created_at` never increases along the sequence. */
  ghost predicate NewestFirst(s: seq<Listing>) {
    forall i, j | 0 <= i < j < |s| :: s[i].createdAt >= s[j].createdAt
  }

  /** A listing at least as new as the head of a newest-first list can go in front of it. */
  lemma PrependNewestFirst(y: Listing, t: seq<Listing>)
    requires NewestFirst(t)
    requires |t| > 0 ==> t[0].createdAt <= y.createdAt
    ensures NewestFirst([y] + t)
  {
    var r := [y] + t;
    forall i, j | 0 <= i < j < |r| ensures r[i].createdAt >= r[j].createdAt {
      assert r[j] == t[j - 1];
      if i > 0 {
        assert r[i] == t[i - 1];
      }
    }
  }

  /** Inserts `x` ahead of the first listing not newer than it. */
  function InsertNewestFirst(x: Listing, s: seq<Listing>): (r: seq<Listing>)
    requires NewestFirst(s)
    ensures multiset(r) == multiset{x} + multiset(s)
    ensures |r| > 0 && (r[0] == x || (|s| > 0 && r[0] == s[0]))
    ensures NewestFirst(r)
  {
    if s == [] || s[0].createdAt <= x.createdAt then
      PrependNewestFirst(x, s);
      [x] + s
    else
      var rest := InsertNewestFirst(x, s[1..]);
      assert multiset(s) == multiset{s[0]} + multiset(s[1..]) by {
        assert s == [s[0]] + s[1..];
      }
      PrependNewestFirst(s[0], rest);
      [s[0]] + rest
  }

  /**
   * `sort_by(|a, b| b.created_at.cmp(&a.created_at))`: an insertion sort; the result is a
   * permutation of the input, newest first. The order among equal `created_at` is not stated.
   */
  function SortNewestFirst(s: seq<Listing>): (r: seq<Listing>)
    ensures multiset(r) == multiset(s)
    ensures NewestFirst(r)
  {
    if s == [] then []
    else
      assert s == [s[0]] + s[1..];
      InsertNewestFirst(s[0], SortNewestFirst(s[1..]))
  }

  function Min(a: nat, b: nat): nat {
    if a <= b then a else b
  }

  /** `skip((page - 1) * per_page).take(per_page)` for pages numbered from 1. */
  function Page(s: seq<Listing>, page: nat, perPage: nat): (r: seq<Listing>)
    requires page >= 1
    ensures |r| == Min(perPage, |s| - Min((page - 1) * perPage, |s|))
    ensures forall k | 0 <= k < |r| :: r[k] == s[(page - 1) * perPage + k]
  {
    var start := Min((page - 1) * perPage, |s|);
    s[start .. start + Min(perPage, |s| - start)]
  }

  /** A page holds only items of the list it is cut from. */
  lemma PageWithin(s: seq<Listing>, page: nat, perPage: nat)
    requires page >= 1
    ensures forall l | l in Page(s, page, perPage) :: l in s
  {
    var r := Page(s, page, perPage);
    forall l | l in r ensures l in s {
      var k :| 0 <= k < |r| && r[k] == l;
      assert s[(page - 1) * perPage + k] == l;
    }
  }

  /** With a positive page size, item i of the whole list is item i % n of page i / n + 1. */
  lemma ItemOnItsPage(s: seq<Listing>, i: nat, perPage: nat)
    requires i < |s| && perPage > 0
    ensures var page := i / perPage + 1;
      i % perPage < |Page(s, page, perPage)| && Page(s, page, perPage)[i % perPage] == s[i]
  {
    var q, m := i / perPage, i % perPage;
    assert q * perPage + m == i;
    assert m < perPage;
  }

  // ---------------------------------------------------------------------------
  // The store object
  // ---------------------------------------------------------------------------

  class ListingsDb {
    var listings: map<Id, Listing>
    var byOrigin: map<Origin, Id>
    var bySeller: set<(Address, Id)>

    function State(): Store
      reads this
    {
      Store(listings, byOrigin, bySeller)
    }

    ghost predicate Valid()
      reads this
    {
      KeysMatch(State())
    }

    /**
     * `ListingsDb::new`: wraps a database that is already open, possibly holding listings saved
     * by an earlier run. Every record such a database holds sits under its own id's key.
     */
    constructor (saved: Store)
      requires KeysMatch(saved)
      ensures Valid()
      ensures State() == saved
    {
      listings := saved.listings;
      byOrigin := saved.byOrigin;
      bySeller := saved.bySeller;
    }

    /** `create_listing`; `id` stands for the fresh UUID and `now` for the clock. */
    method CreateListing(request: CreateListingRequest, id: Id, now: Timestamp) returns (listing: Listing)
      requires Valid() && Creatable(request)
      requires id !in listings
      modifies this
      ensures Valid()
      ensures (State(), listing) == CreateStep(old(State()), request, id, now)
    {
      listing := NewListing(request, id, now);
      listings := listings[listing.id := listing];
      byOrigin := byOrigin[listing.origin := listing.id];
      bySeller := bySeller + {(listing.sellerAddress, listing.id)};
    }

    /** `update_listing`. */
    method UpdateListing(listing: Listing)
      requires Valid()
      modifies this
      ensures Valid()
      ensures State() == UpdateStep(old(State()), listing)
    {
      listings := listings[listing.id := listing];
    }

    /** `cancel_listing`. */
    method CancelListing(id: Id, sellerOrdAddress: Address, now: Timestamp)
      returns (r: Result<Option<Listing>, StoreError>)
      requires Valid()
      modifies this
      ensures Valid()
      ensures (State(), r) == CancelStep(old(State()), id, sellerOrdAddress, now)
    {
      var found := GetListing(State(), id);
      if found.None? {
        return Ok(None);
      }
      var listing := found.value;
      if listing.sellerOrdAddress != sellerOrdAddress {
        return Err(NotAuthorized);
      }
      if listing.status != Active {
        return Err(NotActive);
      }
      listing := listing.(status := Cancelled);
      listing := listing.(updatedAt := now);
      UpdateListing(listing);
      byOrigin := byOrigin - {listing.origin};
      return Ok(Some(listing));
    }

    /** `mark_listing_sold`. */
    method MarkListingSold(id: Id, buyerAddress: Address, purchaseTxid: string, now: Timestamp)
      returns (r: Result<Option<Listing>, StoreError>)
      requires Valid()
      modifies this
      ensures Valid()
      ensures (State(), r) == MarkSoldStep(old(State()), id, buyerAddress, purchaseTxid, now)
    {
      var found := GetListing(State(), id);
      if found.None? {
        return Ok(None);
      }
      var listing := found.value;
      if listing.status != Active {
        return Err(NotActive);
      }
      listing := listing.(status := Sold);
      listing := listing.(soldAt := Some(now));
      listing := listing.(buyerAddress := Some(buyerAddress));
      listing := listing.(purchaseTxid := Some(purchaseTxid));
      listing := listing.(updatedAt := now);
      UpdateListing(listing);
      byOrigin := byOrigin - {listing.origin};
      return Ok(Some(listing));
    }

    /** `count_active_listings`: a scan of the records counting the Active ones. */
    method CountActiveListings() returns (count: nat)
      ensures count == |ActiveIds(State())|
    {
      count := 0;
      var unvisited := listings.Keys;
      while unvisited != {}
        invariant unvisited <= listings.Keys
        invariant count == |ActiveIds(State()) - unvisited|
        decreases unvisited
      {
        var id :| id in unvisited;
        ghost var before := ActiveIds(State()) - unvisited;
        if listings[id].status == Active {
          count := count + 1;
          assert ActiveIds(State()) - (unvisited - {id}) == before + {id};
        } else {
          assert ActiveIds(State()) - (unvisited - {id}) == before;
        }
        unvisited := unvisited - {id};
      }
    }

    /** The scan of `get_active_listings`: every Active record once, in the store's key order. */
    method ScanActive() returns (found: seq<Listing>)
      requires Valid()
      ensures |found| == |ActiveIds(State())|
      ensures forall l :: l in found <==> IsActiveRecord(State(), l)
    {
      found := [];
      var unvisited := listings.Keys;
      while unvisited != {}
        invariant unvisited <= listings.Keys
        invariant forall l | l in found :: IsActiveRecord(State(), l) && l.id !in unvisited
        invariant forall id | id in listings && id !in unvisited && listings[id].status == Active ::
          listings[id] in found
        invariant |found| == |ActiveIds(State()) - unvisited|
        decreases unvisited
      {
        var id :| id in unvisited;
        ghost var before := ActiveIds(State()) - unvisited;
        var listing := listings[id];
        if listing.status == Active {
          found := found + [listing];
          assert ActiveIds(State()) - (unvisited - {id}) == before + {id};
        } else {
          assert ActiveIds(State()) - (unvisited - {id}) == before;
        }
        unvisited := unvisited - {id};
      }
    }

    /**
     * `get_active_listings`: every Active record, newest first, and one page of them. The scan
     * order of the store is left open, so the ghost `ordered` names the sorted list the page is
     * cut from.
     */
    method GetActiveListings(page: nat, perPage: nat)
      returns (items: seq<Listing>, total: nat, ghost ordered: seq<Listing>)
      requires Valid()
      requires page >= 1
      ensures total == |ActiveIds(State())|
      ensures forall l | l in items :: IsActiveRecord(State(), l)
      ensures |items| == Min(perPage, total - Min((page - 1) * perPage, total))
      ensures |ordered| == total
      ensures forall l :: l in ordered <==> IsActiveRecord(State(), l)
      ensures NewestFirst(ordered)
      ensures items == Page(ordered, page, perPage)
    {
      var found := ScanActive();
      var sorted := SortNewestFirst(found);
      assert forall l :: l in sorted <==> l in found by {
        forall l ensures l in sorted <==> l in found {
          assert l in sorted <==> l in multiset(sorted);
        }
      }
      assert |sorted| == |multiset(sorted)| == |multiset(found)| == |found|;
      total := |sorted|;
      items := Page(sorted, page, perPage);
      PageWithin(sorted, page, perPage);
      ordered := sorted;
    }

    /**
     * `get_listings_by_seller`: the records of every status whose id the seller index holds for
     * this seller, newest first. Index entries whose record is missing are skipped.
     */
    method GetListingsBySeller(seller: Address) returns (items: seq<Listing>)
      requires Valid()
      ensures |items| == |SellerIds(State(), seller)|
      ensures forall l :: l in items <==> IsSellerRecord(State(), seller, l)
      ensures NewestFirst(items)
    {
      var found: seq<Listing> := [];
      var unvisited := set p | p in bySeller && p.0 == seller :: p.1;
      ghost var indexed := unvisited;
      while unvisited != {}
        invariant unvisited <= indexed
        invariant forall id :: id in indexed <==> (seller, id) in bySeller
        invariant forall l | l in found :: IsSellerRecord(State(), seller, l) && l.id !in unvisited
        invariant forall id | id in indexed && id !in unvisited && id in listings :: listings[id] in found
        invariant |found| == |SellerIds(State(), seller) - unvisited|
        decreases unvisited
      {
        var id :| id in unvisited;
        ghost var before := SellerIds(State(), seller) - unvisited;
        var record := GetListing(State(), id);
        if record.Some? {
          found := found + [record.value];
          assert SellerIds(State(), seller) - (unvisited - {id}) == before + {id};
        } else {
          assert SellerIds(State(), seller) - (unvisited - {id}) == before;
        }
        unvisited := unvisited - {id};
      }
      items := SortNewestFirst(found);
      assert forall l :: l in items <==> l in found by {
        forall l ensures l in items <==> l in found {
          assert l in items <==> l in multiset(items);
        }
      }
      assert |items| == |multiset(items)| == |multiset(found)| == |found|;
    }
  }

  /** The ids the seller index holds for `seller` that have a record. */
  function SellerIds(st: Store, seller: Address): set<Id> {
    set p | p in st.bySeller && p.0 == seller && p.1 in st.listings :: p.1
  }

  /** `listing` is the stored record under its own id and the seller index lists it for `seller`. */
  ghost predicate IsSellerRecord(st: Store, seller: Address, listing: Listing) {
    listing.id in st.listings && st.listings[listing.id] == listing && (seller, listing.id) in st.bySeller
  }
}
