/**
 * `build_purchase_tx`: the unsigned settlement transaction for a purchase, and one signature
 * request per buyer-funded input.
 *
 * The bitcoin crate is not modelled: which txid strings parse and which addresses are valid
 * mainnet addresses (with their locking scripts) are given by a `Chain` value. The serialised
 * hex of the transaction is replaced by the transaction's structure.
 */
module TxBuilder {
  import opened Wrappers
  import opened Models

  /** A locking or unlocking script, as bytes the model does not look into. */
  type Script = seq<bv8>

  /** The value of the output that carries the ordinal to the buyer. */
  const ORDINAL_SATS: nat := 1
  /** The fixed, conservative miner-fee estimate. */
  const ESTIMATED_FEE: nat := 300
  /** Change below this is not emitted. */
  const DUST_THRESHOLD: nat := 546
  const SEQUENCE_MAX: nat := 0xFFFF_FFFF
  const TX_VERSION: nat := 1
  const LOCK_TIME_ZERO: nat := 0

  /** A buyer's funding output (fields as `build_purchase_tx` reads them). */
  datatype BuyerUtxo = BuyerUtxo(txid: string, vout: nat, satoshis: nat, scriptHex: string)

  /** What an external signer needs to sign one input. */
  datatype SigRequest = SigRequest(inputIndex: nat, prevTxid: string, prevVout: nat, satoshis: nat, scriptHex: string)

  datatype OutPoint = OutPoint(txid: string, vout: nat)
  datatype TxIn = TxIn(previousOutput: OutPoint, scriptSig: Script, sequence: nat)
  datatype TxOut = TxOut(value: nat, scriptPubkey: Script)
  datatype Transaction = Transaction(version: nat, lockTime: nat, inputs: seq<TxIn>, outputs: seq<TxOut>)

  datatype PreparePurchaseResponse = PreparePurchaseResponse(tx: Transaction, sigRequests: seq<SigRequest>)

  datatype TxError = InvalidTxid(txid: string) | InvalidAddress(address: string)

  /**
   * The parsers of the bitcoin crate: `Txid::from_str` succeeds exactly on `validTxid`, and
   * `Address::from_str(a)?.require_network(Bitcoin)?.script_pubkey()` is `scriptOf(a)`.
   */
  datatype Chain = Chain(validTxid: string -> bool, scriptOf: string -> Option<Script>)

  /** An input spending `txid:vout` with no script attached yet. */
  function Spend(txid: string, vout: nat): TxIn {
    TxIn(OutPoint(txid, vout), [], SEQUENCE_MAX)
  }

  function SumSats(utxos: seq<BuyerUtxo>): nat {
    if utxos == [] then 0 else SumSats(utxos[..|utxos| - 1]) + utxos[|utxos| - 1].satoshis
  }

  function OutputSum(outputs: seq<TxOut>): nat {
    if outputs == [] then 0 else OutputSum(outputs[..|outputs| - 1]) + outputs[|outputs| - 1].value
  }

  /** The marketplace output's value: fee plus tip. */
  function FeeTotal(fees: ListingFees): nat {
    fees.marketplaceFee + fees.tipAmount
  }

  /** The ordinal, seller and marketplace outputs together. */
  function FixedOutputs(fees: ListingFees): nat {
    ORDINAL_SATS + fees.sellerReceives + FeeTotal(fees)
  }

  /** The input total the source counts: the ordinal input as 1 sat, plus every buyer input. */
  function InputTotal(utxos: seq<BuyerUtxo>): nat {
    ORDINAL_SATS + SumSats(utxos)
  }

  /** `total_input_sats.saturating_sub(total_fixed_outputs + estimated_fee)`. */
  function Change(totalIn: nat, fees: ListingFees): (change: nat)
    ensures change > 0 ==> change + FixedOutputs(fees) + ESTIMATED_FEE == totalIn
    ensures change == 0 <==> totalIn <= FixedOutputs(fees) + ESTIMATED_FEE
  {
    var needed := FixedOutputs(fees) + ESTIMATED_FEE;
    if totalIn >= needed then totalIn - needed else 0
  }

  /** None when every buyer txid parses; otherwise the position of the first that does not. */
  function FirstInvalidTxid(chain: Chain, utxos: seq<BuyerUtxo>): (r: Option<nat>)
    ensures r.None? <==> forall k | 0 <= k < |utxos| :: chain.validTxid(utxos[k].txid)
    ensures r.Some? ==> r.value < |utxos| && !chain.validTxid(utxos[r.value].txid)
                        && forall k | 0 <= k < r.value :: chain.validTxid(utxos[k].txid)
  {
    if utxos == [] then None
    else if !chain.validTxid(utxos[0].txid) then Some(0)
    else match FirstInvalidTxid(chain, utxos[1..])
      case None => None
      case Some(k) => Some(k + 1)
  }

  /** The sums `build_purchase_tx` forms stay within u64. */
  predicate FitsU64(listing: Listing, utxos: seq<BuyerUtxo>) {
    InputTotal(utxos) <= U64_MAX && FixedOutputs(listing.fees) + ESTIMATED_FEE <= U64_MAX
  }

  /** Inputs 1..N: the buyer's outputs, in the order given. */
  function BuyerInputs(utxos: seq<BuyerUtxo>): seq<TxIn> {
    seq(|utxos|, k requires 0 <= k < |utxos| => Spend(utxos[k].txid, utxos[k].vout))
  }

  /** Request k names input k + 1 and the buyer output it spends. */
  function SigRequests(utxos: seq<BuyerUtxo>): seq<SigRequest> {
    seq(|utxos|, k requires 0 <= k < |utxos| =>
      SigRequest(k + 1, utxos[k].txid, utxos[k].vout, utxos[k].satoshis, utxos[k].scriptHex))
  }

  /** The optional outputs: present exactly when `present`. */
  function OptionalOutput(present: bool, value: nat, script: Option<Script>): seq<TxOut>
    requires present ==> script.Some?
  {
    if present then [TxOut(value, script.value)] else []
  }

  /**
   * The specification of `build_purchase_tx`: the first parse failure in source order is the
   * error; otherwise inputs, outputs and signature requests laid out as the source lays them out.
   */
  function PurchaseTx(chain: Chain, listing: Listing, buyerOrdAddress: string, buyerPaymentAddress: string,
                      utxos: seq<BuyerUtxo>, feeAddress: string): Result<PreparePurchaseResponse, TxError>
  {
    var ordinal := listing.ordinalUtxo;
    var feeTotal := FeeTotal(listing.fees);
    var change := Change(InputTotal(utxos), listing.fees);
    var buyerScript := chain.scriptOf(buyerOrdAddress);
    var sellerScript := chain.scriptOf(listing.sellerAddress);
    var feeScript := chain.scriptOf(feeAddress);
    var changeScript := chain.scriptOf(buyerPaymentAddress);
    if !chain.validTxid(ordinal.txid) then Err(InvalidTxid(ordinal.txid))
    else if FirstInvalidTxid(chain, utxos).Some? then
      Err(InvalidTxid(utxos[FirstInvalidTxid(chain, utxos).value].txid))
    else if buyerScript.None? then Err(InvalidAddress(buyerOrdAddress))
    else if sellerScript.None? then Err(InvalidAddress(listing.sellerAddress))
    else if feeTotal > 0 && feeScript.None? then Err(InvalidAddress(feeAddress))
    else if change >= DUST_THRESHOLD && changeScript.None? then Err(InvalidAddress(buyerPaymentAddress))
    else
      var inputs := [Spend(ordinal.txid, ordinal.vout)] + BuyerInputs(utxos);
      var outputs := [TxOut(ORDINAL_SATS, buyerScript.value), TxOut(listing.fees.sellerReceives, sellerScript.value)]
        + OptionalOutput(feeTotal > 0, feeTotal, feeScript)
        + OptionalOutput(change >= DUST_THRESHOLD, change, changeScript);
      Ok(PreparePurchaseResponse(Transaction(TX_VERSION, LOCK_TIME_ZERO, inputs, outputs), SigRequests(utxos)))
  }

  /**
   * The buyer-input loop of `build_purchase_tx`: parses each txid in order and stops at the first
   * that fails; otherwise one input per UTXO, and the sum of their values.
   */
  method SpendBuyerUtxos(chain: Chain, utxos: seq<BuyerUtxo>) returns (r: Result<(seq<TxIn>, nat), TxError>)
    ensures FirstInvalidTxid(chain, utxos).None? ==> r == Ok((BuyerInputs(utxos), SumSats(utxos)))
    ensures FirstInvalidTxid(chain, utxos).Some? ==>
      r == Err(InvalidTxid(utxos[FirstInvalidTxid(chain, utxos).value].txid))
  {
    var inputs: seq<TxIn> := [];
    var total: nat := 0;
    var i := 0;
    while i < |utxos|
      invariant 0 <= i <= |utxos|
      invariant forall k | 0 <= k < i :: chain.validTxid(utxos[k].txid)
      invariant |inputs| == i
      invariant forall k | 0 <= k < i :: inputs[k] == Spend(utxos[k].txid, utxos[k].vout)
      invariant total == SumSats(utxos[..i])
    {
      var utxo := utxos[i];
      if !chain.validTxid(utxo.txid) {
        assert FirstInvalidTxid(chain, utxos).value == i;
        return Err(InvalidTxid(utxo.txid));
      }
      inputs := inputs + [Spend(utxo.txid, utxo.vout)];
      assert utxos[..i + 1][..i] == utxos[..i];
      total := total + utxo.satoshis;
      i := i + 1;
    }
    assert utxos[..i] == utxos;
    assert inputs == BuyerInputs(utxos);
    return Ok((inputs, total));
  }

  /** The signature-request loop of `build_purchase_tx`: one request per buyer input. */
  method BuildSigRequests(utxos: seq<BuyerUtxo>) returns (requests: seq<SigRequest>)
    ensures requests == SigRequests(utxos)
  {
    requests := [];
    var j := 0;
    while j < |utxos|
      invariant 0 <= j <= |utxos|
      invariant |requests| == j
      invariant forall k | 0 <= k < j :: requests[k] == SigRequest(k + 1, utxos[k].txid,
        utxos[k].vout, utxos[k].satoshis, utxos[k].scriptHex)
    {
      var utxo := utxos[j];
      requests := requests + [SigRequest(j + 1, utxo.txid, utxo.vout, utxo.satoshis, utxo.scriptHex)];
      j := j + 1;
    }
  }

  /** `build_purchase_tx`, step by step. */
  method BuildPurchaseTx(chain: Chain, listing: Listing, buyerOrdAddress: string, buyerPaymentAddress: string,
                         buyerUtxos: seq<BuyerUtxo>, marketplaceFeeAddress: string)
    returns (r: Result<PreparePurchaseResponse, TxError>)
    requires FitsU64(listing, buyerUtxos)
    ensures r == PurchaseTx(chain, listing, buyerOrdAddress, buyerPaymentAddress, buyerUtxos, marketplaceFeeAddress)
  {
    // Input 0: the ordinal.
    var ordinal := listing.ordinalUtxo;
    if !chain.validTxid(ordinal.txid) {
      return Err(InvalidTxid(ordinal.txid));
    }

    // Buyer inputs, their value summed onto the ordinal's 1 sat.
    var spent := SpendBuyerUtxos(chain, buyerUtxos);
    if spent.Err? {
      return Err(spent.error);
    }
    var inputs := [Spend(ordinal.txid, ordinal.vout)] + spent.value.0;
    var totalInputSats := ORDINAL_SATS + spent.value.1;

    // Output 0: the ordinal to the buyer.
    var outputs: seq<TxOut> := [];
    var buyerScript := chain.scriptOf(buyerOrdAddress);
    if buyerScript.None? {
      return Err(InvalidAddress(buyerOrdAddress));
    }
    outputs := outputs + [TxOut(ORDINAL_SATS, buyerScript.value)];

    // Output 1: the seller's asking amount.
    var sellerScript := chain.scriptOf(listing.sellerAddress);
    if sellerScript.None? {
      return Err(InvalidAddress(listing.sellerAddress));
    }
    outputs := outputs + [TxOut(listing.fees.sellerReceives, sellerScript.value)];

    // Output 2: fee plus tip, only when positive.
    var totalMarketplaceSats := listing.fees.marketplaceFee + listing.fees.tipAmount;
    if totalMarketplaceSats > 0 {
      var feeScript := chain.scriptOf(marketplaceFeeAddress);
      if feeScript.None? {
        return Err(InvalidAddress(marketplaceFeeAddress));
      }
      outputs := outputs + [TxOut(totalMarketplaceSats, feeScript.value)];
    }
    ghost var fixedOutputs := [TxOut(ORDINAL_SATS, buyerScript.value), TxOut(listing.fees.sellerReceives, sellerScript.value)]
      + OptionalOutput(totalMarketplaceSats > 0, totalMarketplaceSats, chain.scriptOf(marketplaceFeeAddress));
    assert outputs == fixedOutputs;

    // Change, saturating, emitted only at or above the dust threshold.
    var totalFixedOutputs := ORDINAL_SATS + listing.fees.sellerReceives + totalMarketplaceSats;
    var estimatedFee := ESTIMATED_FEE;
    var change := if totalInputSats >= totalFixedOutputs + estimatedFee
                  then totalInputSats - (totalFixedOutputs + estimatedFee) else 0;
    assert change == Change(InputTotal(buyerUtxos), listing.fees);
    if change >= DUST_THRESHOLD {
      var changeScript := chain.scriptOf(buyerPaymentAddress);
      if changeScript.None? {
        return Err(InvalidAddress(buyerPaymentAddress));
      }
      outputs := outputs + [TxOut(change, changeScript.value)];
    }
    assert outputs == fixedOutputs + OptionalOutput(change >= DUST_THRESHOLD, change, chain.scriptOf(buyerPaymentAddress));

    // One signature request per buyer input; input 0 gets none.
    var sigRequests := BuildSigRequests(buyerUtxos);
    return Ok(PreparePurchaseResponse(Transaction(TX_VERSION, LOCK_TIME_ZERO, inputs, outputs), sigRequests));
  }

  // ---------------------------------------------------------------------------
  // What the assembled transaction satisfies
  // ---------------------------------------------------------------------------

  lemma {:induction false} OutputSumAppend(a: seq<TxOut>, b: seq<TxOut>)
    ensures OutputSum(a + b) == OutputSum(a) + OutputSum(b)
    decreases |b|
  {
    if b == [] {
      assert a + b == a;
    } else {
      assert (a + b)[..|a + b| - 1] == a + b[..|b| - 1];
      OutputSumAppend(a, b[..|b| - 1]);
    }
  }

  /** Input 0 spends the listed ordinal, inputs 1..N the buyer's outputs in order, none signed. */
  lemma InputLayout(chain: Chain, listing: Listing, buyerOrdAddress: string, buyerPaymentAddress: string,
                    utxos: seq<BuyerUtxo>, feeAddress: string, r: Result<PreparePurchaseResponse, TxError>)
    requires r == PurchaseTx(chain, listing, buyerOrdAddress, buyerPaymentAddress, utxos, feeAddress)
    requires r.Ok?
    ensures var inputs := r.value.tx.inputs;
      && |inputs| == |utxos| + 1
      && inputs[0].previousOutput == OutPoint(listing.ordinalUtxo.txid, listing.ordinalUtxo.vout)
      && (forall k | 0 <= k < |utxos| :: inputs[k + 1].previousOutput == OutPoint(utxos[k].txid, utxos[k].vout))
      && (forall k | 0 <= k < |inputs| :: inputs[k].scriptSig == [])
  {
  }

  /**
   * Output 0 is 1 sat to the buyer, output 1 the asking amount to the seller, then the fee output
   * exactly when fee plus tip is positive, then the change output exactly when change is not dust.
   */
  lemma OutputLayout(chain: Chain, listing: Listing, buyerOrdAddress: string, buyerPaymentAddress: string,
                     utxos: seq<BuyerUtxo>, feeAddress: string, r: Result<PreparePurchaseResponse, TxError>)
    requires r == PurchaseTx(chain, listing, buyerOrdAddress, buyerPaymentAddress, utxos, feeAddress)
    requires r.Ok?
    ensures var outputs := r.value.tx.outputs;
      var feeTotal := FeeTotal(listing.fees);
      var change := Change(InputTotal(utxos), listing.fees);
      && |outputs| == 2 + (if feeTotal > 0 then 1 else 0) + (if change >= DUST_THRESHOLD then 1 else 0)
      && outputs[0] == TxOut(ORDINAL_SATS, chain.scriptOf(buyerOrdAddress).value)
      && outputs[1] == TxOut(listing.fees.sellerReceives, chain.scriptOf(listing.sellerAddress).value)
      && (feeTotal > 0 ==> outputs[2] == TxOut(feeTotal, chain.scriptOf(feeAddress).value))
      && (change >= DUST_THRESHOLD ==>
            outputs[|outputs| - 1] == TxOut(change, chain.scriptOf(buyerPaymentAddress).value))
  {
  }

  /**
   * Value: with change emitted, outputs plus the fee estimate use up the inputs exactly; when the
   * inputs cover the fixed outputs and the estimate, at most a dust amount more goes to the miner;
   * without change the outputs are exactly the fixed ones, whatever the inputs were.
   */
  lemma ValueConservation(chain: Chain, listing: Listing, buyerOrdAddress: string, buyerPaymentAddress: string,
                          utxos: seq<BuyerUtxo>, feeAddress: string, r: Result<PreparePurchaseResponse, TxError>)
    requires r == PurchaseTx(chain, listing, buyerOrdAddress, buyerPaymentAddress, utxos, feeAddress)
    requires r.Ok?
    ensures var spent := OutputSum(r.value.tx.outputs);
      var totalIn := InputTotal(utxos);
      var change := Change(totalIn, listing.fees);
      && (change >= DUST_THRESHOLD ==> spent + ESTIMATED_FEE == totalIn)
      && (change < DUST_THRESHOLD ==> spent == FixedOutputs(listing.fees))
      && (totalIn >= FixedOutputs(listing.fees) + ESTIMATED_FEE ==>
            spent + ESTIMATED_FEE <= totalIn < spent + ESTIMATED_FEE + DUST_THRESHOLD)
  {
    var outputs := r.value.tx.outputs;
    var feeTotal := FeeTotal(listing.fees);
    var change := Change(InputTotal(utxos), listing.fees);
    var first := [TxOut(ORDINAL_SATS, chain.scriptOf(buyerOrdAddress).value),
                  TxOut(listing.fees.sellerReceives, chain.scriptOf(listing.sellerAddress).value)];
    var fee := OptionalOutput(feeTotal > 0, feeTotal, chain.scriptOf(feeAddress));
    var tail := OptionalOutput(change >= DUST_THRESHOLD, change, chain.scriptOf(buyerPaymentAddress));
    assert outputs == first + fee + tail;
    OutputSumAppend(first + fee, tail);
    OutputSumAppend(first, fee);
    assert OutputSum(first) == ORDINAL_SATS + listing.fees.sellerReceives by {
      assert first[..1][..0] == [];
    }
    assert OutputSum(fee) == (if feeTotal > 0 then feeTotal else 0) by {
      if feeTotal > 0 { assert fee[..0] == []; }
    }
    assert OutputSum(tail) == (if change >= DUST_THRESHOLD then change else 0) by {
      if change >= DUST_THRESHOLD { assert tail[..0] == []; }
    }
  }

  /**
   * Underfunded inputs are not rejected: with every parse succeeding and inputs below the fixed
   * outputs, the transaction is still built and its outputs exceed its inputs.
   */
  lemma UnderfundedNotRejected(chain: Chain, listing: Listing, buyerOrdAddress: string, buyerPaymentAddress: string,
                               utxos: seq<BuyerUtxo>, feeAddress: string)
    requires chain.validTxid(listing.ordinalUtxo.txid)
    requires forall k | 0 <= k < |utxos| :: chain.validTxid(utxos[k].txid)
    requires chain.scriptOf(buyerOrdAddress).Some? && chain.scriptOf(listing.sellerAddress).Some?
    requires chain.scriptOf(feeAddress).Some?
    requires InputTotal(utxos) < FixedOutputs(listing.fees)
    ensures var r := PurchaseTx(chain, listing, buyerOrdAddress, buyerPaymentAddress, utxos, feeAddress);
      r.Ok? && OutputSum(r.value.tx.outputs) > InputTotal(utxos)
  {
    var r := PurchaseTx(chain, listing, buyerOrdAddress, buyerPaymentAddress, utxos, feeAddress);
    ValueConservation(chain, listing, buyerOrdAddress, buyerPaymentAddress, utxos, feeAddress, r);
  }

  /** Change of 545 sats is dropped to the miner; change of 546 is paid back. */
  lemma DustBoundary(chain: Chain, listing: Listing, buyerOrdAddress: string, buyerPaymentAddress: string,
                     utxos: seq<BuyerUtxo>, feeAddress: string, r: Result<PreparePurchaseResponse, TxError>)
    requires r == PurchaseTx(chain, listing, buyerOrdAddress, buyerPaymentAddress, utxos, feeAddress)
    requires r.Ok?
    ensures var outputs := r.value.tx.outputs;
      var base := FixedOutputs(listing.fees) + ESTIMATED_FEE;
      && (InputTotal(utxos) == base + DUST_THRESHOLD - 1 ==>
            OutputSum(outputs) + ESTIMATED_FEE + 545 == InputTotal(utxos)
            && |outputs| == 2 + (if FeeTotal(listing.fees) > 0 then 1 else 0))
      && (InputTotal(utxos) == base + DUST_THRESHOLD ==> outputs[|outputs| - 1].value == 546)
  {
    ValueConservation(chain, listing, buyerOrdAddress, buyerPaymentAddress, utxos, feeAddress, r);
    OutputLayout(chain, listing, buyerOrdAddress, buyerPaymentAddress, utxos, feeAddress, r);
  }

  /**
   * One signature request per buyer input, request i naming input i + 1 and the very output that
   * input spends; input 0, the ordinal, is never requested.
   */
  lemma SigRequestsAlign(chain: Chain, listing: Listing, buyerOrdAddress: string, buyerPaymentAddress: string,
                         utxos: seq<BuyerUtxo>, feeAddress: string, r: Result<PreparePurchaseResponse, TxError>)
    requires r == PurchaseTx(chain, listing, buyerOrdAddress, buyerPaymentAddress, utxos, feeAddress)
    requires r.Ok?
    ensures var inputs := r.value.tx.inputs;
      var requests := r.value.sigRequests;
      && |requests| == |utxos| == |inputs| - 1
      && forall i | 0 <= i < |requests| ::
           && 1 <= requests[i].inputIndex < |inputs|
           && requests[i].inputIndex == i + 1
           && inputs[requests[i].inputIndex].previousOutput == OutPoint(requests[i].prevTxid, requests[i].prevVout)
           && requests[i].satoshis == utxos[i].satoshis
           && requests[i].scriptHex == utxos[i].scriptHex
  {
  }

  /**
   * The build fails exactly when a txid or a needed address does not parse: the fee address is
   * needed only when fee plus tip is positive, the change address only when change is not dust.
   */
  lemma PurchaseTxFailsIff(chain: Chain, listing: Listing, buyerOrdAddress: string, buyerPaymentAddress: string,
                           utxos: seq<BuyerUtxo>, feeAddress: string)
    ensures PurchaseTx(chain, listing, buyerOrdAddress, buyerPaymentAddress, utxos, feeAddress).Err?
      <==> || !chain.validTxid(listing.ordinalUtxo.txid)
           || (exists k | 0 <= k < |utxos| :: !chain.validTxid(utxos[k].txid))
           || chain.scriptOf(buyerOrdAddress).None?
           || chain.scriptOf(listing.sellerAddress).None?
           || (FeeTotal(listing.fees) > 0 && chain.scriptOf(feeAddress).None?)
           || (Change(InputTotal(utxos), listing.fees) >= DUST_THRESHOLD && chain.scriptOf(buyerPaymentAddress).None?)
  {
  }

  /** With no fee and tip the marketplace address is never read; with dust change neither is the change address. */
  lemma UnneededAddressesIgnored(chain: Chain, listing: Listing, buyerOrdAddress: string, buyerPaymentAddress: string,
                                 utxos: seq<BuyerUtxo>, feeAddress: string, otherAddress: string)
    ensures FeeTotal(listing.fees) == 0 ==>
      PurchaseTx(chain, listing, buyerOrdAddress, buyerPaymentAddress, utxos, feeAddress)
      == PurchaseTx(chain, listing, buyerOrdAddress, buyerPaymentAddress, utxos, otherAddress)
    ensures Change(InputTotal(utxos), listing.fees) < DUST_THRESHOLD ==>
      PurchaseTx(chain, listing, buyerOrdAddress, buyerPaymentAddress, utxos, feeAddress)
      == PurchaseTx(chain, listing, buyerOrdAddress, otherAddress, utxos, feeAddress)
  {
  }

  /** The ordinal input is counted as 1 sat whatever value the listing records for it. */
  lemma OrdinalValueIgnored(chain: Chain, listing: Listing, buyerOrdAddress: string, buyerPaymentAddress: string,
                            utxos: seq<BuyerUtxo>, feeAddress: string, recorded: nat)
    ensures var relisted := listing.(ordinalUtxo := listing.ordinalUtxo.(satoshis := recorded));
      PurchaseTx(chain, relisted, buyerOrdAddress, buyerPaymentAddress, utxos, feeAddress)
      == PurchaseTx(chain, listing, buyerOrdAddress, buyerPaymentAddress, utxos, feeAddress)
  {
  }
}
