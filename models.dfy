/**
 * The marketplace's listing records and the fee model (`ListingFees::calculate`).
 *
 * Amounts are satoshis (`u64` in the source, `nat` here, bounded by U64_MAX where a sum
 * is formed). Tip percentages, an `f64` in the source, are carried as integers in
 * thousandths of a percent: 0, 2500 and 5000 are the tiers 0%, 2.5% and 5%.
 */
module Models {
  import opened Wrappers

  const U64_MAX: nat := 0xFFFF_FFFF_FFFF_FFFF

  /** One percent of a percent scale: 100% is 100 * TIP_UNIT thousandths. */
  const TIP_UNIT: nat := 1000
  const TIP_TIER_LOW: int := 2500
  const TIP_TIER_HIGH: int := 5000

  type Id = string
  type Origin = string
  type Address = string
  /** A reading of the wall clock (`DateTime<Utc>`), ordered like the source's timestamps. */
  type Timestamp = nat

  datatype ListingStatus = Active | Sold | Cancelled

  datatype ListingFees = ListingFees(
    sellerReceives: nat,
    marketplaceFee: nat,
    tipAmount: nat,
    tipPercent: int,
    totalPrice: nat)

  datatype OrdinalUtxoRef = OrdinalUtxoRef(txid: string, vout: nat, satoshis: nat, script: string)

  datatype Listing = Listing(
    id: Id,
    origin: Origin,
    sellerAddress: Address,
    sellerOrdAddress: Address,
    fees: ListingFees,
    status: ListingStatus,
    psbtHex: Option<string>,
    listingUtxo: Option<string>,
    ordinalUtxo: OrdinalUtxoRef,
    createdAt: Timestamp,
    updatedAt: Timestamp,
    soldAt: Option<Timestamp>,
    buyerAddress: Option<Address>,
    purchaseTxid: Option<string>)

  datatype CreateListingRequest = CreateListingRequest(
    origin: Origin,
    ordinalUtxo: OrdinalUtxoRef,
    sellerWantsSatoshis: nat,
    tipPercent: int,
    sellerAddress: Address,
    sellerOrdAddress: Address)

  datatype CancelListingRequest = CancelListingRequest(listingId: Id, sellerOrdAddress: Address)

  datatype PurchaseListingRequest = PurchaseListingRequest(
    listingId: Id,
    buyerAddress: Address,
    buyerOrdAddress: Address,
    paymentUtxos: seq<OrdinalUtxoRef>)

  /** Query of the listings endpoint; `page` defaults to 1 and `per_page` to 50 when absent. */
  datatype ListingsQuery = ListingsQuery(page: nat, perPage: nat, seller: Option<Address>, status: Option<string>)

  datatype ListingsResponse = ListingsResponse(listings: seq<Listing>, total: nat, page: nat, perPage: nat)

  /** The three tip tiers the request layer accepts verbatim. */
  predicate IsTipTier(tipPercent: int) {
    tipPercent == 0 || tipPercent == TIP_TIER_LOW || tipPercent == TIP_TIER_HIGH
  }

  /** The 1% marketplace fee, rounded up: the least fee with fee * 100 >= amount. */
  function MarketplaceFee(amount: nat): (fee: nat)
    ensures amount <= fee * 100 < amount + 100
  {
    (amount + 99) / 100
  }

  /**
   * The tip, `amount * tipPercent / 100` rounded up. A non-positive percentage gives 0:
   * the source's `ceil(...) as u64` saturates negative values to zero.
   */
  function TipAmount(amount: nat, tipPercent: int): (tip: nat)
    ensures tipPercent <= 0 ==> tip == 0
    ensures tipPercent > 0 ==>
      amount * tipPercent <= tip * (100 * TIP_UNIT) < amount * tipPercent + 100 * TIP_UNIT
  {
    if tipPercent <= 0 then 0
    else
      var scaled := amount * tipPercent;
      (scaled + 100 * TIP_UNIT - 1) / (100 * TIP_UNIT)
  }

  /** The sum formed by `calculate` does not overflow a u64. */
  predicate FeesFitU64(amount: nat, tipPercent: int) {
    amount + MarketplaceFee(amount) + TipAmount(amount, tipPercent) <= U64_MAX
  }

  /** `ListingFees::calculate`: the breakdown a buyer pays for a seller's asking amount. */
  function Calculate(sellerWants: nat, tipPercent: int): (fees: ListingFees)
    requires FeesFitU64(sellerWants, tipPercent)
    ensures fees.sellerReceives == sellerWants
    ensures fees.tipPercent == tipPercent
    ensures sellerWants <= fees.marketplaceFee * 100 < sellerWants + 100
    ensures tipPercent <= 0 ==> fees.tipAmount == 0
    ensures tipPercent > 0 ==>
      sellerWants * tipPercent <= fees.tipAmount * (100 * TIP_UNIT) < sellerWants * tipPercent + 100 * TIP_UNIT
    ensures fees.totalPrice == fees.sellerReceives + fees.marketplaceFee + fees.tipAmount
    ensures sellerWants <= fees.totalPrice <= U64_MAX
  {
    var marketplaceFee := MarketplaceFee(sellerWants);
    var tipAmount := TipAmount(sellerWants, tipPercent);
    var sellerReceives := sellerWants;
    ListingFees(sellerReceives, marketplaceFee, tipAmount, tipPercent,
                sellerReceives + marketplaceFee + tipAmount)
  }

  /** The fee is 0 only for a free listing and exactly 1 sat for any ask from 1 to 100. */
  lemma FeeOfSmallAsks(amount: nat)
    ensures MarketplaceFee(amount) == 0 <==> amount == 0
    ensures 1 <= amount <= 100 ==> MarketplaceFee(amount) == 1
  {
  }

  /** Two worked values: 1000 at 2.5% and 10000 at 0%. */
  lemma WorkedFees()
    ensures Calculate(1000, TIP_TIER_LOW) == ListingFees(1000, 10, 25, TIP_TIER_LOW, 1035)
    ensures Calculate(10000, 0) == ListingFees(10000, 100, 0, 0, 10100)
  {
  }

  lemma MulMonotone(a: int, b: int, c: nat)
    requires a <= b
    ensures a * c <= b * c
  {
    var d := b - a;
    assert b * c == a * c + d * c;
  }

  /** A rounded-up quotient never decreases when its dividend grows. */
  lemma CeilingMonotone(x: int, y: int, unit: nat, qx: int, qy: int)
    requires 0 < unit && x <= y
    requires x <= qx * unit < x + unit
    requires y <= qy * unit
    ensures qx <= qy
  {
    if qx > qy {
      MulMonotone(qy + 1, qx, unit);
    }
  }

  /** A larger ask never lowers any component of the breakdown at the same tip. */
  lemma CalculateMonotone(a: nat, b: nat, tipPercent: int)
    requires a <= b
    requires FeesFitU64(b, tipPercent)
    ensures FeesFitU64(a, tipPercent)
    ensures Calculate(a, tipPercent).marketplaceFee <= Calculate(b, tipPercent).marketplaceFee
    ensures Calculate(a, tipPercent).tipAmount <= Calculate(b, tipPercent).tipAmount
    ensures Calculate(a, tipPercent).totalPrice <= Calculate(b, tipPercent).totalPrice
  {
    CeilingMonotone(a, b, 100, MarketplaceFee(a), MarketplaceFee(b));
    if tipPercent > 0 {
      assert a * tipPercent <= b * tipPercent by {
        assert (b - a) * tipPercent >= 0;
      }
      CeilingMonotone(a * tipPercent, b * tipPercent, 100 * TIP_UNIT,
                      TipAmount(a, tipPercent), TipAmount(b, tipPercent));
    }
  }
}
