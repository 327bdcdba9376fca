# Ordinals marketplace: listing lifecycle and settlement transaction, in Dafny

This project models the core of a marketplace where sellers list ordinals (single satoshis that
carry inscribed data) for sale and buyers purchase them with one settlement transaction. It
proves properties of the model. It covers four pieces of the Rust service:

- **Fee model** (`models.dfy`, module `Models`). `ListingFees::calculate` maps an asking amount
  and a tip to a breakdown. The seller receives the asking amount. The marketplace takes a 1% fee
  rounded up. The tip is rounded up. The buyer's total is the sum of the three. The source
  computes with `f64`. The model uses exact integer ceilings, `(s + 99) / 100` and
  `(s * p + 99999) / 100000`, with the tip `p` in thousandths of a percent (0, 2500 and 5000 are
  the tiers 0%, 2.5% and 5%). This is the semantics the float code intends.
- **Listing store** (`listings_db.dfy`, module `Listings`). sled holds three logical tables:
  records (`listing:{id}`), the origin index (`listing_by_origin:{origin}` → id) and the seller
  index (`listing_by_seller:{seller}:{id}`). The value `Store` holds them as a
  `map<Id, Listing>`, a `map<Origin, Id>` and a `set<(Address, Id)>`. Each mutation is a step
  function on `Store` (`CreateStep`, `UpdateStep`, `CancelStep`, `MarkSoldStep`). The class
  `ListingsDb` keeps the same three tables as fields. Each of its methods is proved to perform
  exactly its step. Its scans (`count_active_listings`, `get_active_listings`,
  `get_listings_by_seller`) are loops over the keys, proved against the set of records they must
  return. The key invariant is `OriginIndexed`: the origin index maps `o` to `id` exactly when
  record `id` is Active with origin `o`. The lemmas prove that cancel and mark-sold preserve it.
  They also prove that raw create and `update_listing` can break it, and what happens next.
- **Purchase transaction assembler** (`tx_builder.dfy`, module `TxBuilder`). `build_purchase_tx`
  is an imperative method proved equal to the specification function `PurchaseTx`. The lemmas
  about `PurchaseTx` cover:
  - the input and output layout;
  - the saturating change computation and the 546-sat dust rule;
  - value conservation;
  - the alignment of signature requests with inputs;
  - exactly when the build fails.
- **Request guards** (`handlers.dfy`, module `Handlers`). This is the decision logic of
  `create_listing`, `cancel_listing`, `purchase_listing`, `calculate_fees` and `get_listings`. The
  guarded create checks the origin index before it calls the store. That check is what keeps
  one Active listing per origin when operations run one after another.

The store's lookups `get_listing`, `get_listing_by_origin` and `is_origin_listed`
(src/services/listings_db.rs:70-94, 232-235) are the functions `Listings.GetListing`,
`Listings.GetListingByOrigin` and `Listings.IsOriginListed`. `OriginListedIffActive`,
`CreateStepEffect` and `UpdateStepEffect` state what they return.

`wrappers.dfy` holds `Option` and `Result`.

Parameters stand for what the model cannot see:
- The fresh UUID of a new listing is a parameter `id`, required to be absent from the store.
- The clock is a parameter `now`. One reading stands for the two `Utc::now()` calls of an
  operation.
- The bitcoin crate's parsers are a `Chain` value. It says which txid strings parse and which
  mainnet addresses are valid, with their locking scripts.

## Behaviour of the code worth knowing

- The store's `create_listing` checks neither the origin index nor the tip. It normalises the tip:
  exactly 0 stays 0, a tip within 0.01% of 2.5% or 5% snaps to that tier, and anything else
  becomes 0. The Conflict check and the exact tier check happen only in the handler.
- `build_purchase_tx` does not reject underfunded inputs. It then emits no change, and the outputs
  can exceed the inputs (`UnderfundedNotRejected`).
- The ordinal input is counted as exactly 1 sat, whatever value the listing records for it.
- The source has no funding selector and no finalize or broadcast step. `tx_builder.rs` is not
  listed in `src/services/mod.rs`. Its types `BuyerUtxo`, `SigRequest` and
  `PreparePurchaseResponse` are defined here from the fields it uses.
- `purchase_listing` does not check the listing's status (`PurchaseIgnoresStatus`).
- `cancel_listing` and `mark_listing_sold` remove the origin key of the record's origin without
  checking which id the key holds (`CancelAfterDuplicateOrphans`).

## Model

| member | source | states |
|---|---|---|
| `Models.MarketplaceFee` | src/models/mod.rs:162-163 | the fee is the least multiple-of-100 bound: `amount <= fee*100 < amount+100`, i.e. the ceiling of 1% |
| `Models.TipAmount` | src/models/mod.rs:165-166 | the tip is the ceiling of amount × tip / 100; a zero or negative tip gives 0 (saturating cast) |
| `Models.Calculate` | src/models/mod.rs:160-182 | seller receives the ask exactly; the tip percent is echoed; fee and tip are the ceilings; total is the sum of the three, so it is at least the ask |
| `Models.FeeOfSmallAsks` | src/models/mod.rs:162-163 | the fee is 0 only for ask 0, and 1 sat for every ask from 1 to 100 |
| `Models.WorkedFees` | src/models/mod.rs:161-181 | 1000 at 2.5% gives {1000, 10, 25, 1035}; 10000 at 0% gives {10000, 100, 0, 10100} |
| `Models.CalculateMonotone` | src/models/mod.rs:160-182 | a larger ask never lowers the fee, the tip or the total |
| `Listings.NormalizeTip` | src/services/listings_db.rs:21-27 | always a tier; a tier is kept; snaps to 2.5% or 5% exactly when within 0.01% of it; never rejects |
| `Listings.OriginIndexIff` | src/services/listings_db.rs:54-57 | under the invariant, the origin index maps o to id iff record id is Active with origin o |
| `Listings.OneActivePerOrigin` | src/services/listings_db.rs:54-57 | with the origin index exact, two Active listings of one origin are the same listing |
| `Listings.OriginListedIffActive` | src/services/listings_db.rs:232-235 | on a consistent store `is_origin_listed` holds iff an Active listing of that origin exists |
| `Listings.CreateStepEffect` | src/services/listings_db.rs:20-67 | the new listing is Active, has fees computed from the normalised tip and no sale fields; it is found by id and by origin; the seller index holds (seller, id); no other record changes |
| `Listings.CreatePreservesWhenUnlisted` | src/services/listings_db.rs:49-62 | a create for an origin that is not listed keeps the records, origin index and seller index consistent |
| `Listings.CreateOverListedBreaksIndex` | src/services/listings_db.rs:54-57 | a raw create over a listed origin leaves two Active listings of that origin and the origin index no longer exact |
| `Listings.UpdateStepEffect` | src/services/listings_db.rs:96-104 | `update_listing` rewrites only the record under the listing's id and leaves both indices unchanged |
| `Listings.UpdateCanBreakIndex` | src/services/listings_db.rs:96-104 | moving an Active record out of Active through `update_listing` leaves a stale origin key |
| `Listings.CancelStepOutcomes` | src/services/listings_db.rs:106-135 | absent gives Ok(None); a wrong ordinal address gives NotAuthorized before the status is checked; not Active gives NotActive; success sets Cancelled and `updated_at` only, removes the origin key, keeps the seller index, and the origin is then not listed |
| `Listings.CancelNeverTwice` | src/services/listings_db.rs:118-121 | after a successful cancel, any further cancel of that listing fails |
| `Listings.CancelPreservesConsistent` | src/services/listings_db.rs:123-131 | cancel keeps the three tables consistent |
| `Listings.MarkSoldStepOutcomes` | src/services/listings_db.rs:137-167 | absent gives Ok(None); not Active gives NotActive; success sets Sold, `sold_at`, buyer, txid and `updated_at` together and removes the origin key |
| `Listings.MarkSoldNeverTwice` | src/services/listings_db.rs:149-151 | a second sale fails with NotActive, changes nothing, and the first sale's txid stays |
| `Listings.MarkSoldPreservesConsistent` | src/services/listings_db.rs:153-163 | mark-sold keeps the three tables consistent |
| `Listings.CancelAfterDuplicateOrphans` | src/services/listings_db.rs:129-131 | after a raw create duplicates an origin, cancelling the first listing leaves the second Active but unlisted |
| `Listings.SortNewestFirst` | src/services/listings_db.rs:183-184 | the sorted listings are a permutation of the input, ordered by `created_at` descending |
| `Listings.Page` | src/services/listings_db.rs:188-194 | the page holds the items from index (page-1)*per_page onward, at most per_page of them, clipped to the list |
| `Listings.ItemOnItsPage` | src/services/listings_db.rs:188-194 | with a positive page size, item i of the list is item i mod n of page i/n + 1 |
| `Listings.ListingsDb.constructor` | src/services/listings_db.rs:15-17 | wraps an already-open database as it is: the tables are exactly the saved ones, whatever listings an earlier run left |
| `Listings.FreshStoreConsistent` | src/main.rs:35-52 | a freshly created database has no Active listings and satisfies the index invariant |
| `Listings.ListingsDb.CreateListing` | src/services/listings_db.rs:20-67 | the three tables after the call are `CreateStep` of the tables before it; records stay keyed by their id |
| `Listings.ListingsDb.UpdateListing` | src/services/listings_db.rs:97-104 | the tables after the call are `UpdateStep` of the tables before it |
| `Listings.ListingsDb.CancelListing` | src/services/listings_db.rs:107-135 | tables and result are `CancelStep` of the tables before the call |
| `Listings.ListingsDb.MarkListingSold` | src/services/listings_db.rs:138-167 | tables and result are `MarkSoldStep` of the tables before the call |
| `Listings.ListingsDb.CountActiveListings` | src/services/listings_db.rs:218-230 | the count is the number of Active records |
| `Listings.ListingsDb.ScanActive` | src/services/listings_db.rs:171-181 | the scan collects every Active record exactly once and nothing else |
| `Listings.ListingsDb.GetActiveListings` | src/services/listings_db.rs:170-197 | total is the number of Active records, the same as the count; every returned item is Active; the page holds min(per_page, total − (page−1)·per_page) items, cut from a newest-first list of exactly the Active records |
| `Listings.ListingsDb.GetListingsBySeller` | src/services/listings_db.rs:200-215 | the records of every status that the seller index holds for the seller, one per indexed id with a record, newest first |
| `TxBuilder.Change` | src/services/tx_builder.rs:72-75 | saturating: change is 0 when the inputs do not exceed fixed outputs plus 300; otherwise change plus fixed outputs plus 300 equals the inputs |
| `TxBuilder.FirstInvalidTxid` | src/services/tx_builder.rs:37-38 | None iff every buyer txid parses; otherwise the least position whose txid does not |
| `TxBuilder.SpendBuyerUtxos` | src/services/tx_builder.rs:35-46 | the buyer-input loop stops at the first txid that does not parse and reports that txid; otherwise it yields one input per UTXO, in order, and the sum of their values |
| `TxBuilder.BuildSigRequests` | src/services/tx_builder.rs:85-96 | the request loop yields `SigRequests`: request k names input k+1 and copies UTXO k's txid, vout, satoshis and script |
| `TxBuilder.BuildPurchaseTx` | src/services/tx_builder.rs:11-105 | the imperative build (input pushes, summing loop, output pushes, signature-request loop) returns exactly `PurchaseTx`, including which parse error comes first |
| `TxBuilder.InputLayout` | src/services/tx_builder.rs:25-46 | input 0 spends the ordinal (txid, vout); input k+1 spends buyer UTXO k in the given order; no input has a script |
| `TxBuilder.OutputLayout` | src/services/tx_builder.rs:48-83 | output 0 is 1 sat to the buyer; output 1 is the ask to the seller; a fee+tip output exists iff that sum is positive; a change output exists iff change ≥ 546, and it comes last |
| `TxBuilder.ValueConservation` | src/services/tx_builder.rs:72-83 | with change emitted, outputs + 300 = inputs; without it, the outputs are exactly the fixed ones; when funded, less than 546 sats beyond the estimate go to the miner |
| `TxBuilder.UnderfundedNotRejected` | src/services/tx_builder.rs:72-83 | with all parses succeeding and inputs below the fixed outputs, the build still succeeds and the outputs exceed the inputs |
| `TxBuilder.DustBoundary` | src/services/tx_builder.rs:77-83 | 545 sats of change are dropped (no change output); 546 are paid back as the last output |
| `TxBuilder.SigRequestsAlign` | src/services/tx_builder.rs:85-96 | one request per buyer UTXO; request i names input i+1, which spends that request's txid and vout; satoshis and script are copied; input 0 is never requested |
| `TxBuilder.PurchaseTxFailsIff` | src/services/tx_builder.rs:25-83 | the build fails iff the ordinal txid, a buyer txid, the buyer or seller address, the fee address (only when fee+tip > 0) or the change address (only when change ≥ 546) does not parse |
| `TxBuilder.UnneededAddressesIgnored` | src/services/tx_builder.rs:62-83 | with no fee+tip the fee address is never read; with dust change the change address is never read |
| `TxBuilder.OrdinalValueIgnored` | src/services/tx_builder.rs:36-46 | the value recorded for the ordinal UTXO does not affect the result |
| `Handlers.CreateRejection` | src/api/handlers.rs:303-327 | an origin already listed gives CONFLICT before the tip is looked at; otherwise any tip other than 0, 2.5% or 5% gives BAD_REQUEST; else nothing is rejected |
| `Handlers.CreateListing` | src/api/handlers.rs:297-347 | store and response after the call are `HandleCreate` of the store before it |
| `Handlers.GuardedCreatePreserves` | src/api/handlers.rs:303-330 | the guarded create keeps the store consistent, so one Active listing per origin holds sequentially |
| `Handlers.GuardedCreateOutcome` | src/api/handlers.rs:303-346 | a rejected create leaves the store unchanged; a create succeeds iff the origin is unlisted and the tip is a tier; it records the requested tier verbatim, so the store's normalisation is unused; it is found by origin and is the only Active listing of it |
| `Handlers.CalculateFees` | src/api/handlers.rs:214-219 | the preview echoes the ask and the tip unchecked, charges the 1% ceiling fee, totals the three; for a tier it equals the fees the store records on create |
| `Handlers.FeePreviewSkipsTierCheck` | src/api/handlers.rs:214-219 | for every tip that is not a tier, the preview shows that tip (a positive tip amount on a positive ask), while create on an unlisted origin answers BAD_REQUEST and changes nothing; 1% on 1000 previews a 10 sat tip |
| `Handlers.CancelListing` | src/api/handlers.rs:350-383 | store and response after the call are `HandleCancel` of the store before it |
| `Handlers.CancelHandlerOutcomes` | src/api/handlers.rs:357-382 | an id mismatch gives BAD_REQUEST before any store access; absent gives NOT_FOUND; a store error gives BAD_REQUEST with its message; success iff present, authorised and Active, and then the origin is no longer listed |
| `Handlers.CancelHandlerPreserves` | src/api/handlers.rs:364-382 | a cancel through the handler keeps the store consistent; repeating it gives BAD_REQUEST "Listing is not active" |
| `Handlers.PurchaseListing` | src/api/handlers.rs:386-429 | an id mismatch gives BAD_REQUEST; absent gives NOT_FOUND; otherwise Ok with `total_satoshis = total_price` and the fee components, seller address and ordinal UTXO verbatim; a function of the store, so nothing changes |
| `Handlers.PurchaseIgnoresStatus` | src/api/handlers.rs:400-428 | a Sold or Cancelled listing is still answered with Ok |
| `Handlers.GetListings` | src/api/handlers.rs:222-269 | with a seller filter: that seller's listings, page 1, `per_page = total = count`; otherwise the requested page of the newest-first Active listings, with total the number of Active records |

## Left out

- Storage and serde failures (sled I/O, JSON encoding and decoding) are not modelled: the store
  never fails. The handlers' INTERNAL_SERVER_ERROR branches (src/api/handlers.rs:311-317,
  339-345, 241-247, 260-266, 406-411) are therefore absent. Records are stored as values, so the
  serde round trip is the identity.
- Concurrency: operations are sequential. The non-atomic multi-key writes and the race between
  `is_origin_listed` (src/api/handlers.rs:304) and the inserts (src/services/listings_db.rs:52-62)
  are not modelled. `CreateOverListedBreaksIndex` and `CancelAfterDuplicateOrphans` show what that
  race would leave behind.
- Listings.ListingsDb.GetActiveListings: the order among listings with equal `created_at` is
  left open. sled's key order and the stable sort fix it in the source. The model proves only that
  the list is newest-first and holds exactly the Active records.
- Listings.ListingsDb.GetListingsBySeller: the order among equal `created_at` is left open, as
  above.
- Listings.ListingsDb.GetActiveListings: requires `page >= 1`. `page - 1` underflows a `usize`
  for page 0 (src/services/listings_db.rs:189). The wrap-around of `(page - 1) * per_page` for
  huge pages is not modelled.
- Handlers.GetListings: requires `page >= 1` when no seller is given, for the same reason.
- Models.Calculate: `f64` arithmetic is replaced by exact integer ceilings, and a tip is
  representable only in thousandths of a percent. For the tiers 0, 2.5% and 5%, and for the 1% fee,
  the float code equals the exact ceiling for amounts below 2^53; above that it loses precision and
  may round differently. The snapping window `|p − tier| <= 0.01%` is inclusive because, in double
  arithmetic, `2.51 − 2.5` and `2.5 − 2.49` fall below `0.01`.
- Handlers.CalculateFees: for a tip that is not a tier, which only the fee preview accepts,
  `tip_percent / 100.0` is inexact (src/models/mod.rs:166), and the float ceiling can be one sat
  higher than the exact one. For example, 100 sats at 7% gives a tip of 8 (total 109) in the source
  and 7 (total 108) in the model. The same happens at 14% and 17% for small asks. The preview's
  tip amount and total are therefore exact ceilings, not the float results.
- Models.Calculate: u64 overflow of the total (src/models/mod.rs:172) is excluded by the
  precondition `FeesFitU64`, rather than modelled as a panic or wrap.
- TxBuilder.BuildPurchaseTx: u64 overflow of the input sum and of the fixed outputs
  (src/services/tx_builder.rs:45, 63, 73, 75) is excluded by the precondition `FitsU64`. The
  truncating `input_index as u32` is not modelled.
- Byte-level transaction serialisation and the hex encoding of `raw_tx_hex` are not modelled. The
  response carries the transaction's structure instead. Witnesses, always empty, are omitted. An
  outpoint holds the txid string as given: `Txid::from_str` is only a validity predicate here,
  and its normalisation of the hash is not modelled.
- Listings.ListingsDb.GetListingsBySeller: the seller index is a set of (seller, id) pairs, so a
  lookup for seller `X` returns only listings whose seller is exactly `X`. The source's prefix scan
  of `listing_by_seller:X:` also matches the keys of a seller `X:...` (a seller `X:` with id `U` is
  indexed as `listing_by_seller:X::U`). Nothing checks `seller_address` before it is indexed
  (src/api/handlers.rs:297-330, src/services/listings_db.rs:20-62); it is parsed only at purchase
  time (src/services/tx_builder.rs:56). The model assumes no seller address contains `:`. The
  source does not check this.
- The `psbt_hex` and `listing_utxo` fields are carried but never set, as in the source.
- The handlers `get_listing` and `get_listing_by_origin` forward a lookup and shape JSON, so they
  are not modelled separately. The wallet, content, health and search handlers are not part of
  this model.
- The indexer client with its rate limiter (src/services/gorillapool.rs), the ordinal service
  (src/services/ordinals.rs), the cache (src/cache/mod.rs), configuration, startup and routing
  are I/O and wiring, and are not part of this model.
