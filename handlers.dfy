/**
 * The decision logic of the listing endpoints: which checks run, in which order, before the store
 * is called, and how the store's outcomes become responses. Extraction of the request and the
 * JSON shaping of the response are not modelled; an error response is its status code, its
 * error code and its message.
 */
module Handlers {
  import opened Wrappers
  import opened Models
  import opened Listings

  datatype StatusCode = BadRequest | NotFound | Conflict

  datatype ApiError = ApiError(status: StatusCode, error: string, message: string)

  const ALREADY_LISTED: ApiError := ApiError(Conflict, "already_listed", "This ordinal is already listed")
  const INVALID_TIP: ApiError := ApiError(BadRequest, "invalid_tip", "Tip must be 0%, 2.5%, or 5%")
  const ID_MISMATCH: ApiError := ApiError(BadRequest, "id_mismatch", "Listing ID mismatch")
  const NOT_FOUND: ApiError := ApiError(NotFound, "not_found", "Listing not found")

  function CancelError(e: StoreError): ApiError {
    ApiError(BadRequest, "cancel_error", StoreErrorMessage(e))
  }

  // ---------------------------------------------------------------------------
  // calculate_fees
  // ---------------------------------------------------------------------------

  /**
   * `calculate_fees`: the fee preview, with the tip passed through unchecked. For a tier it shows
   * exactly the fees the store records on create; any other tip is echoed, not normalised.
   */
  function CalculateFees(amount: nat, tipPercent: int): (fees: ListingFees)
    requires FeesFitU64(amount, tipPercent)
    ensures fees.sellerReceives == amount && fees.tipPercent == tipPercent
    ensures amount <= fees.marketplaceFee * 100 < amount + 100
    ensures fees.totalPrice == amount + fees.marketplaceFee + fees.tipAmount
    ensures IsTipTier(tipPercent) ==> fees == Calculate(amount, NormalizeTip(tipPercent))
  {
    Calculate(amount, tipPercent)
  }

  // ---------------------------------------------------------------------------
  // create_listing
  // ---------------------------------------------------------------------------

  /** The checks `create_listing` makes before it calls the store: origin first, then the tip. */
  function CreateRejection(originListed: bool, tipPercent: int): (rejection: Option<ApiError>)
    ensures originListed ==> rejection == Some(ALREADY_LISTED)
    ensures rejection == Some(INVALID_TIP) <==> !originListed && !IsTipTier(tipPercent)
    ensures rejection.None? <==> !originListed && IsTipTier(tipPercent)
  {
    if originListed then Some(ALREADY_LISTED)
    else if !IsTipTier(tipPercent) then Some(INVALID_TIP)
    else None
  }

  /** A request that passes the tip check does not overflow the fee arithmetic. */
  predicate CreateFits(request: CreateListingRequest) {
    IsTipTier(request.tipPercent) ==> FeesFitU64(request.sellerWantsSatoshis, request.tipPercent)
  }

  /** The store's state and the response after `create_listing`. */
  function HandleCreate(st: Store, request: CreateListingRequest, id: Id, now: Timestamp)
    : (Store, Result<Listing, ApiError>)
    requires CreateFits(request)
  {
    match CreateRejection(IsOriginListed(st, request.origin), request.tipPercent)
    case Some(e) => (st, Err(e))
    case None =>
      var (st', listing) := CreateStep(st, request, id, now);
      (st', Ok(listing))
  }

  /** `create_listing`; `id` stands for the fresh UUID the store draws and `now` for the clock. */
  method CreateListing(db: ListingsDb, request: CreateListingRequest, id: Id, now: Timestamp)
    returns (r: Result<Listing, ApiError>)
    requires db.Valid() && CreateFits(request)
    requires id !in db.listings
    modifies db
    ensures db.Valid()
    ensures (db.State(), r) == HandleCreate(old(db.State()), request, id, now)
  {
    if IsOriginListed(db.State(), request.origin) {
      return Err(ALREADY_LISTED);
    }
    if !IsTipTier(request.tipPercent) {
      return Err(INVALID_TIP);
    }
    var listing := db.CreateListing(request, id, now);
    return Ok(listing);
  }

  /**
   * The guarded create keeps the store consistent: it reaches the store only for an origin that
   * is not listed, so the one-active-listing-per-origin index stays exact.
   */
  lemma GuardedCreatePreserves(st: Store, request: CreateListingRequest, id: Id, now: Timestamp)
    requires Consistent(st) && CreateFits(request)
    requires id !in st.listings
    ensures Consistent(HandleCreate(st, request, id, now).0)
  {
    if CreateRejection(IsOriginListed(st, request.origin), request.tipPercent).None? {
      CreatePreservesWhenUnlisted(st, request, id, now);
    }
  }

  /**
   * A rejected create leaves the store as it was; an accepted one records the requested tier
   * verbatim (the store's normalisation never changes it on this path), its fees are the ones
   * the fee preview shows, and it is the one Active listing of its origin.
   */
  lemma GuardedCreateOutcome(st: Store, request: CreateListingRequest, id: Id, now: Timestamp)
    requires Consistent(st) && CreateFits(request)
    requires id !in st.listings
    ensures var (st', r) := HandleCreate(st, request, id, now);
      && (r.Err? ==> st' == st)
      && (IsOriginListed(st, request.origin) ==> r == Err(ALREADY_LISTED))
      && (r.Ok? <==> !IsOriginListed(st, request.origin) && IsTipTier(request.tipPercent))
      && (r.Ok? ==>
            && r.value.fees == CalculateFees(request.sellerWantsSatoshis, request.tipPercent)
            && GetListingByOrigin(st', request.origin) == Some(r.value)
            && forall other | other in st'.listings && st'.listings[other].status == Active
                 && st'.listings[other].origin == request.origin :: other == id)
  {
    var (st', r) := HandleCreate(st, request, id, now);
    if r.Ok? {
      CreatePreservesWhenUnlisted(st, request, id, now);
      CreateStepEffect(st, request, id, now);
      forall other | other in st'.listings && st'.listings[other].status == Active
        && st'.listings[other].origin == request.origin
        ensures other == id
      {
        OneActivePerOrigin(st', other, id);
      }
    }
  }

  /**
   * The fee preview accepts every tip that create rejects: for any tip other than a tier, the
   * preview shows that tip and, for a positive tip on a positive ask, a positive tip amount, while
   * create on an unlisted origin answers BAD_REQUEST and leaves the store as it was. For
   * instance 1% previews as a 10 sat tip on 1000.
   */
  lemma FeePreviewSkipsTierCheck(st: Store, request: CreateListingRequest, id: Id, now: Timestamp)
    requires !IsTipTier(request.tipPercent)
    requires FeesFitU64(request.sellerWantsSatoshis, request.tipPercent)
    requires !IsOriginListed(st, request.origin)
    ensures CalculateFees(request.sellerWantsSatoshis, request.tipPercent).tipPercent == request.tipPercent
    ensures request.tipPercent > 0 && request.sellerWantsSatoshis > 0 ==>
      CalculateFees(request.sellerWantsSatoshis, request.tipPercent).tipAmount > 0
    ensures HandleCreate(st, request, id, now) == (st, Err(INVALID_TIP))
    ensures CalculateFees(1000, TIP_UNIT).tipAmount == 10
  {
    if request.tipPercent > 0 && request.sellerWantsSatoshis > 0 {
      var fees := CalculateFees(request.sellerWantsSatoshis, request.tipPercent);
      assert request.sellerWantsSatoshis * request.tipPercent > 0;
      assert fees.tipAmount * (100 * TIP_UNIT) > 0;
    }
  }

  // ---------------------------------------------------------------------------
  // cancel_listing
  // ---------------------------------------------------------------------------

  /** How `cancel_listing` maps the store's outcome to a response. */
  function CancelResponse(outcome: Result<Option<Listing>, StoreError>): Result<Listing, ApiError> {
    match outcome
    case Ok(Some(listing)) => Ok(listing)
    case Ok(None) => Err(NOT_FOUND)
    case Err(e) => Err(CancelError(e))
  }

  function HandleCancel(st: Store, pathId: Id, request: CancelListingRequest, now: Timestamp)
    : (Store, Result<Listing, ApiError>)
  {
    if pathId != request.listingId then (st, Err(ID_MISMATCH))
    else
      var (st', outcome) := CancelStep(st, pathId, request.sellerOrdAddress, now);
      (st', CancelResponse(outcome))
  }

  /** `cancel_listing`. */
  method CancelListing(db: ListingsDb, pathId: Id, request: CancelListingRequest, now: Timestamp)
    returns (r: Result<Listing, ApiError>)
    requires db.Valid()
    modifies db
    ensures db.Valid()
    ensures (db.State(), r) == HandleCancel(old(db.State()), pathId, request, now)
  {
    if pathId != request.listingId {
      return Err(ID_MISMATCH);
    }
    var outcome := db.CancelListing(pathId, request.sellerOrdAddress, now);
    r := CancelResponse(outcome);
  }

  /** The responses of `cancel_listing`, in the order its checks run. */
  lemma CancelHandlerOutcomes(st: Store, pathId: Id, request: CancelListingRequest, now: Timestamp)
    requires KeysMatch(st)
    ensures var (st', r) := HandleCancel(st, pathId, request, now);
      && (pathId != request.listingId ==> r == Err(ID_MISMATCH) && st' == st)
      && (pathId == request.listingId && pathId !in st.listings ==> r == Err(NOT_FOUND) && st' == st)
      && (pathId == request.listingId && pathId in st.listings
          && st.listings[pathId].sellerOrdAddress != request.sellerOrdAddress ==>
            r == Err(CancelError(NotAuthorized)) && st' == st)
      && (pathId == request.listingId && pathId in st.listings
          && st.listings[pathId].sellerOrdAddress == request.sellerOrdAddress
          && st.listings[pathId].status != Active ==>
            r == Err(CancelError(NotActive)) && st' == st)
      && (r.Ok? <==>
            pathId == request.listingId && pathId in st.listings
            && st.listings[pathId].sellerOrdAddress == request.sellerOrdAddress
            && st.listings[pathId].status == Active)
      && (r.Ok? ==> r.value.status == Cancelled && !IsOriginListed(st', r.value.origin))
  {
    if pathId == request.listingId {
      CancelStepOutcomes(st, pathId, request.sellerOrdAddress, now);
    }
  }

  /** A cancel through the handler keeps the store consistent, and a second one is refused. */
  lemma CancelHandlerPreserves(st: Store, pathId: Id, request: CancelListingRequest, now: Timestamp, later: Timestamp)
    requires Consistent(st)
    ensures Consistent(HandleCancel(st, pathId, request, now).0)
    ensures HandleCancel(st, pathId, request, now).1.Ok? ==>
      HandleCancel(HandleCancel(st, pathId, request, now).0, pathId, request, later).1 == Err(CancelError(NotActive))
  {
    if pathId == request.listingId {
      CancelPreservesConsistent(st, pathId, request.sellerOrdAddress, now);
      CancelStepOutcomes(st, pathId, request.sellerOrdAddress, now);
    }
  }

  // ---------------------------------------------------------------------------
  // purchase_listing
  // ---------------------------------------------------------------------------

  /** The `purchase_info` part of a purchase response. */
  datatype PurchaseInfo = PurchaseInfo(
    listing: Listing,
    totalSatoshis: nat,
    sellerReceives: nat,
    marketplaceFee: nat,
    tipAmount: nat,
    sellerAddress: Address,
    ordinalUtxo: OrdinalUtxoRef)

  /**
   * `purchase_listing`: a read of the store. It reports the recorded fees verbatim and does not
   * look at the listing's status.
   */
  function PurchaseListing(st: Store, pathId: Id, request: PurchaseListingRequest): (r: Result<PurchaseInfo, ApiError>)
    ensures pathId != request.listingId ==> r == Err(ID_MISMATCH)
    ensures pathId == request.listingId && pathId !in st.listings ==> r == Err(NOT_FOUND)
    ensures r.Ok? <==> pathId == request.listingId && pathId in st.listings
    ensures r.Ok? ==>
      var fees := st.listings[pathId].fees;
      && r.value.listing == st.listings[pathId]
      && r.value.totalSatoshis == fees.totalPrice
      && r.value.sellerReceives == fees.sellerReceives
      && r.value.marketplaceFee == fees.marketplaceFee
      && r.value.tipAmount == fees.tipAmount
      && r.value.sellerAddress == st.listings[pathId].sellerAddress
      && r.value.ordinalUtxo == st.listings[pathId].ordinalUtxo
  {
    if pathId != request.listingId then Err(ID_MISMATCH)
    else match GetListing(st, pathId)
      case None => Err(NOT_FOUND)
      case Some(l) =>
        Ok(PurchaseInfo(l, l.fees.totalPrice, l.fees.sellerReceives, l.fees.marketplaceFee,
                        l.fees.tipAmount, l.sellerAddress, l.ordinalUtxo))
  }

  /** A sold or cancelled listing is still offered for purchase. */
  lemma PurchaseIgnoresStatus(st: Store, pathId: Id, request: PurchaseListingRequest)
    requires pathId == request.listingId && pathId in st.listings
    requires st.listings[pathId].status != Active
    ensures PurchaseListing(st, pathId, request).Ok?
    ensures PurchaseListing(st, pathId, request).value.listing.status != Active
  {
  }

  // ---------------------------------------------------------------------------
  // get_listings
  // ---------------------------------------------------------------------------

  /**
   * `get_listings`: with a seller filter, that seller's listings of every status on one page
   * sized to fit them; otherwise one page of the Active listings, newest first. The status
   * filter of the query is not read.
   */
  method GetListings(db: ListingsDb, query: ListingsQuery) returns (r: ListingsResponse, ghost ordered: seq<Listing>)
    requires db.Valid()
    requires query.seller.None? ==> query.page >= 1
    ensures query.seller.Some? ==>
      && r.page == 1
      && r.perPage == r.total == |r.listings| == |SellerIds(db.State(), query.seller.value)|
      && (forall l :: l in r.listings <==> IsSellerRecord(db.State(), query.seller.value, l))
      && NewestFirst(r.listings)
    ensures query.seller.None? ==>
      && r.page == query.page && r.perPage == query.perPage
      && r.total == |ordered| == |ActiveIds(db.State())|
      && (forall l :: l in ordered <==> IsActiveRecord(db.State(), l))
      && NewestFirst(ordered)
      && r.listings == Page(ordered, query.page, query.perPage)
  {
    if query.seller.Some? {
      var listings := db.GetListingsBySeller(query.seller.value);
      var total := |listings|;
      r := ListingsResponse(listings, total, 1, total);
      ordered := listings;
    } else {
      var listings, total;
      listings, total, ordered := db.GetActiveListings(query.page, query.perPage);
      r := ListingsResponse(listings, total, query.page, query.perPage);
    }
  }
}
