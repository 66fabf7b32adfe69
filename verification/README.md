# FairCross in Dafny

FairCross is a deterministic frequent-batch auction. Orders collected over an
interval clear at one price that maximises executed volume; the volume is
allocated by price priority and largest remainder; the resulting fills settle
on a ledger; a checker re-derives the whole result; and a transparent
constraint system records it as one step of a hash-chained session.

This project models that pipeline and proves what it is for.

| files | part of the system |
|---|---|
| `Primitives`, `Sums`, `Sorting` | checked widths, finite sums, sorting |
| `Orders`, `Auction` | intake, clearing |
| `LargestRemainder`, `Allocation`, `AllocationEngine`, `AllocationProperties`, `AllocationFairness`, `AllocationSorting` | allocation: its definition, the loops that compute it, exactness, fairness, exactly when the sort shows |
| `Ledgers`, `Settlement`, `SettlementProperties`, `SettlementSuccess` | accounts, fills, the transition, exactly when it succeeds |
| `Checker`, `CheckerProperties` | the checker and its equivalence with execution |
| `Commitments`, `Merkle`, `LedgerCommitment`, `Accounting` | digests, trees, ledger roots, complete-input accounting |
| `Sha256`, `Sha256Standard`, `Sha256Example` | the buffered hash, the functions and constants of FIPS 180-4, and its published example |
| `R1cs`, `ConstraintParts`, `OrderValidity`, `AccountingConstraints`, `ClearingConstraints`, `AllocationConstraints`, `FillConstraints`, `ConservationConstraints`, `ConservationSatisfaction` | wrapped arithmetic and the six subrelations |
| `RecordBinding`, `Prover`, `ProverProperties`, `ProverLimits`, `ProverSize` | the single-batch prover, exactly what it accepts, and the size of its certificate |
| `Session`, `SessionProperties` | running state, session proving and verification |
| `Book` | the level-3 order book and its replay |

Methods follow the source's loops and updates; each is proved equal to a ghost
function or predicate, and the theorems are lemmas about those. `dafny verify
dfyconfig.toml` checks everything.

## Main results

* The checker accepts a proposal if and only if execution produces it
  (`CheckerProperties.CheckerCharacterisesExecution`).
* The published volume is the maximum over every 64-bit price, and the midpoint
  attains it (`Auction.ClearingIsOptimal`, `Auction.ClearingPriceAttainsMaximum`).
* Allocation of a cleared volume is exact and cannot fail, and between any two
  orders of a side the published fills follow price, then time, then the
  largest remainder (`AllocationProperties.AllocationIsExact`,
  `AllocationFairness.AllocationIsFair`).
* The allocation depends on the sorting algorithm exactly when the volume ends
  strictly inside a tie on price and sequence number, and there is a validated
  batch where it does (`AllocationSorting.AllocationShowsSortExactly`,
  `AllocationSorting.ItmSortTieIsObservable`).
* The conservation guards never fire (`SettlementProperties.GuardsNeverFire`),
  and a validated batch executes if and only if its sides fit, the ledger's
  totals are representable and every account covers its own fills in order
  (`SettlementSuccess.ExecutionSucceedsExactly`).
* A validated batch is provable if and only if the run is honest, its sequence
  numbers are 0..n-1, its considerations fit 64 bits, and no account's cash
  crosses a multiple of 2^64 (`ProverProperties.ProvableExactly`). Each
  exception is real: `ProverLimits` gives an honest run refused for each.
* A proved session conserves cash and inventory although its steps are linked by
  digests alone, and its boundary states pin down every batch and every ledger
  balance in it (`SessionProperties.SessionConserves`,
  `SessionProperties.SharedBoundariesShareBatches`,
  `SessionProperties.SharedBoundariesShareLedgers`). Verification without the
  steps guarantees less: it accepts some session between two states exactly when
  the final history extends the initial one
  (`SessionProperties.VerifiableBoundaries`).
* Every operation of the order book keeps each level equal to the shares resting
  there, every message means what its fields say, and every quote is the true
  top (`Book.OrderBook`, `Book.MessageMeans`, `Book.ReplayEngine`).
* Incremental hashing equals the standard's digest for every split of the input
  (`Sha256.Sha256.HashPieces`, `Sha256.WrappedDigestIsStandard`), whose round
  constants are the cube roots of the primes and whose published example comes
  out (`Sha256Standard.ConstantsAreCubeRoots`, `Sha256Example.HashAbc`).

## Modelling decisions

* A 64- or 128-bit value is a subset type of `int`; wrap-around, narrowing and
  saturation are written out where the source relies on them (allocation totals,
  batch numbers, the low 64 bits of money in the constraints, scalars modulo
  2^128, the bit length of a hashed message).
* Specifications are total: id-keyed maps are modelled exactly, so the
  definitions also say what happens on a batch with repeated ids. Only the
  theorems that need a validated batch assume one.
* A digest is the term that was hashed, so different terms have different
  digests; that different records are different terms is proved from the
  byte encodings. `Sha256` separately shows that the three hash domains
  are disjoint at the level of bytes. A history can then not return to itself,
  which is why two sessions with equal boundary states have equal length.
* The 64-bit projection of a root that enters the circuit is an arbitrary
  function of the digest; nothing depends on which.
* A certificate's text is its constraint count together with the public inputs.
* `std::sort` is an insertion sort. Where another correct sort could be told
  apart is proved: never for the batch order of unique ids and for the
  remainder ranking, and for the in-the-money order if and only if the volume
  ends strictly inside a group that ties on price and sequence number
  (`AllocationSorting.AllocationShowsSortExactly`).

Where the source's comments and code differ, the code is modelled. The comment
at `cpp/src/proof/constraints/order_validity.cpp:55-57` says that the non-zero
gadget is unsatisfiable for a zero value unless the inverse is zero; in the
code `x * inv = x` holds at `x = 0` for every `inv`
(`OrderValidity.NonZeroGadgetMeans`). Intake, not the gadget, is what excludes
zero prices and quantities.

## Model

| member | source | states |
|---|---|---|
| Primitives.AddQty | cpp/include/faircross/domain/primitives.hpp:73-78 | quantity addition succeeds exactly when the true sum fits 64 bits, and then is that sum |
| Primitives.SubQty | cpp/include/faircross/domain/primitives.hpp:80-85 | quantity subtraction succeeds exactly when nothing is borrowed |
| Primitives.SaturatingSubQty | cpp/include/faircross/domain/primitives.hpp:87-90 | the difference when there is one, otherwise zero |
| Primitives.AddMoney | cpp/include/faircross/domain/primitives.hpp:122-127 | money addition succeeds exactly when the true sum fits 128 bits |
| Primitives.SubMoney | cpp/include/faircross/domain/primitives.hpp:129-134 | money subtraction succeeds exactly when nothing is borrowed |
| Primitives.ProductNeverOverflows | cpp/include/faircross/domain/primitives.hpp:113-120 | the 128-bit overflow guard of price times quantity can never fire |
| Orders.CreateBatch | cpp/src/engine/batch.cpp:13-36 | accepts exactly unique ids, one instrument, positive price and quantity; the batch keeps the identifiers and exactly the submitted orders, strictly by sequence number and then by id |
| Orders.ArrivalOrder | cpp/src/engine/batch.cpp:5-11 | a validated batch lists its orders strictly by sequence number, and equal sequence numbers by id |
| Orders.IntakeOrderUnobservable | cpp/src/engine/batch.cpp:5-36 | two permutations of a submission are accepted alike and create the same batch, whichever correct sort is used |
| Auction.DemandFromOrders | cpp/src/engine/auction.cpp:6-16 | the checked scan returns the demand at a price, or fails exactly when it exceeds 64 bits |
| Auction.SupplyFromOrders | cpp/src/engine/auction.cpp:18-28 | the checked scan returns the supply at a price, or fails exactly when it exceeds 64 bits |
| Auction.CandidatePrices | cpp/src/engine/auction.cpp:30-41 | sorting and dropping repeats yields each order price once, increasing |
| Auction.FillBuckets | cpp/src/engine/auction.cpp:50-67 | the per-price buckets hold exactly each side's quantity at that price |
| Auction.SupplySweep | cpp/src/engine/auction.cpp:69-76 | prefix sums equal the naive supply at every candidate and fail exactly when total sell quantity exceeds 64 bits |
| Auction.DemandSweep | cpp/src/engine/auction.cpp:78-86 | suffix sums equal the naive demand at every candidate and fail exactly when total buy quantity exceeds 64 bits |
| Auction.ComputeMaximizers | cpp/src/engine/auction.cpp:43-113 | the sweep equals the naive definition: same tables, maximum and maximising prices; it errs exactly when one side's total does not fit 64 bits |
| Auction.DetermineClearingOutcome | cpp/src/engine/auction.cpp:132-139 | the outcome is the maximum volume with the resolved price |
| Auction.ClearingIsOptimal | cpp/src/engine/auction.cpp:88-139 | the published volume is at least the executable volume at every 64-bit price, not only at order prices |
| Auction.MaximizersFormInterval | cpp/src/engine/auction.cpp:105-130 | all prices at which the maximum executes are exactly the interval between the extreme maximising order prices |
| Auction.TieResolution | cpp/src/engine/auction.cpp:115-130 | the overflow-safe midpoint is the floor of half the sum of the extreme maximisers |
| Auction.ClearingPriceAttainsMaximum | cpp/src/engine/auction.cpp:115-139 | a price is published exactly when volume clears; it is the midpoint of all maximising prices and attains the maximum even where no order rests |
| LargestRemainder.QuotaArithmetic | cpp/src/engine/allocation.cpp:118-120 | the product of quantity and target fits 128 bits; floor share and remainder fit 64; the share of a positive quantity is strictly below it |
| LargestRemainder.RemaindersMakeSurplus | cpp/src/engine/allocation.cpp:116-125 | the remainders sum to the surplus times the total at-the-money quantity |
| LargestRemainder.SurplusNeedsRemainders | cpp/src/engine/allocation.cpp:127-137 | ranked by remainder, every order that receives an extra lot has a non-zero remainder |
| LargestRemainder.LargestRemainderExact | cpp/src/engine/allocation.cpp:103-139 | awards sum to exactly the remaining volume; each is its floor share or one more; extra lots go only to non-zero remainders; the cap at the order quantity never binds |
| LargestRemainder.LargerNeverGetsLess | cpp/src/engine/allocation.cpp:127-137 | a larger order never receives less than a smaller one; equal ones differ by at most one lot |
| AllocationEngine.Partition | cpp/src/engine/allocation.cpp:42-72 | splits one side by moneyness in batch order with the exact class quantities, failing exactly when a class total exceeds 64 bits |
| AllocationEngine.FillInTheMoney | cpp/src/engine/allocation.cpp:74-101 | fills by price and then by the earlier sequence number up to the target, or completely, and leaves the rest of the target |
| AllocationEngine.FillAtTheMoney | cpp/src/engine/allocation.cpp:103-139 | fills nothing, everything or the largest-remainder share of the rest |
| AllocationEngine.ProRate | cpp/src/engine/allocation.cpp:110-137 | the accumulated floor shares leave a non-negative surplus, which goes one lot at a time to the largest remainders |
| AllocationEngine.AllocateOneSide | cpp/src/engine/allocation.cpp:18-177 | one entry per order of the side in batch order, with the fill its class gives it |
| AllocationEngine.AllocateBatch | cpp/src/engine/allocation.cpp:179-252 | both sides, their wrapped totals, and the entries merged back into batch order through the id-keyed maps |
| AllocationProperties.SideIsExact | cpp/src/engine/allocation.cpp:18-177 | with enough eligible quantity a side is filled to exactly the target and no order beyond its size |
| AllocationProperties.MergeIsPositional | cpp/src/engine/allocation.cpp:222-243 | with unique ids the id-keyed merge with erasure yields entry i for order i |
| AllocationProperties.MergeTakesOnce | cpp/src/engine/allocation.cpp:222-243 | whatever ids repeat, the merge hands out each entry at most once, a repeated id its buy entry before its sell entry |
| AllocationProperties.ZeroTargetFillsNothing | cpp/src/engine/allocation.cpp:24-40 | a zero target never fails and gives every order of the side an entry with its own terms and no fill |
| AllocationProperties.AllocationIsExact | cpp/src/engine/allocation.cpp:179-252 | allocating a cleared volume cannot fail: one entry per order in order, repeating its terms field by field, nothing overfilled or out of the money, both sides exactly the volume, both totals unwrapped |
| AllocationFairness.SidePriority | cpp/src/engine/allocation.cpp:77-101 | a worse-priced order trades only once every better-priced order of its side is complete; inside the money an earlier one at the same price comes first |
| AllocationFairness.SideFairness | cpp/src/engine/allocation.cpp:103-139 | at the money, fills are monotone in order size up to one lot between equals |
| AllocationFairness.SideTimePriority | cpp/src/engine/allocation.cpp:80-94 | inside the money, of two orders of a side at one price the one with the smaller sequence number is complete before the other trades |
| AllocationFairness.RemainderDecides | cpp/src/engine/allocation.cpp:110-137 | each at-the-money order gets the floor of its proportional share or one more; one that got the extra lot has, against one that did not, a larger remainder, or an equal one and a smaller sequence number, or these equal and a smaller id |
| AllocationFairness.AllocationIsFair | cpp/src/engine/allocation.cpp:179-252 | of the published entries, for any two orders of a side: a better price is complete before a worse one trades; so is an earlier order at one price inside the money; at the clearing price the larger order gets no less, shares are rounded down or up, and those rounded up have the larger remainders, then the earlier sequence number, then the smaller id |
| AllocationSorting.ServedBefore | cpp/src/engine/allocation.cpp:80-94 | a correct sort serves before an order everything of higher priority, nothing of lower, and only part of its tie |
| AllocationSorting.SharedLevel | cpp/src/engine/allocation.cpp:80-88 | for positive quantities an order shares its level exactly when another order ties with it on price and sequence number |
| AllocationSorting.ItmSortShowsExactly | cpp/src/engine/allocation.cpp:77-101 | for every target, two correct sorts of the in-the-money orders give different fills if and only if the target ends strictly inside a tie on price and sequence number |
| AllocationSorting.AllocationShowsSortExactly | cpp/src/engine/allocation.cpp:179-252 | the published allocation depends on the sort if and only if, on some side, the volume ends strictly inside such a tie |
| AllocationSorting.AllocationServesTheSort | cpp/src/engine/allocation.cpp:179-252 | the allocation of a cleared volume is the one that some correct sort serves |
| AllocationSorting.DistinctTimesHideTheSort | cpp/src/engine/allocation.cpp:80-88 | with distinct sequence numbers no target shows the sort |
| AllocationSorting.ItmSortTieIsObservable | cpp/src/engine/allocation.cpp:80-94 | a concrete validated batch clears at volume 5 and its published allocation depends on the sort |
| AllocationFairness.ProRataSortUnobservable | cpp/src/engine/allocation.cpp:127-131 | the remainder ranking breaks every tie by id, so no correct sort changes it |
| Ledgers.TotalUpdate | cpp/include/faircross/domain/account.hpp:126-134 | replacing one account moves a ledger total by exactly that account's change |
| Ledgers.Ledger.GetOrCreateAccount | cpp/include/faircross/domain/account.hpp:94-100 | opens the account at zero if it is missing, changes nothing else, and returns it |
| Ledgers.Ledger.TotalCashChecked | cpp/include/faircross/domain/account.hpp:126-134 | the running sum returns the total cash, or fails exactly when it exceeds 128 bits |
| Ledgers.Ledger.TotalInventoryChecked | cpp/include/faircross/domain/account.hpp:136-144 | the running sum returns the total of one instrument, or fails exactly when it exceeds 64 bits |
| Settlement.GenerateCanonicalFills | cpp/src/engine/fill.cpp:5-36 | one fill per non-zero entry, numbered in allocation order, at the clearing price |
| Settlement.SettleOn | cpp/src/engine/transition.cpp:13-26 | settles one fill on the working ledger; success and the resulting ledger are those of the pure settlement step |
| Settlement.ApplyBatchTransition | cpp/src/engine/transition.cpp:6-48 | settles every fill on a copy and re-checks cash and every touched instrument; the pre-ledger object is untouched |
| Settlement.ExecuteBatch | cpp/src/engine/transition.cpp:50-76 | clear, allocate, fill and settle, failing where the first of them fails; the pre-ledger is untouched |
| SettlementProperties.SettledAccount | cpp/src/engine/transition.cpp:13-26 | a settled fill moves its account by exactly its consideration and quantity, touches no other instrument, and keeps the salt |
| SettlementProperties.NoEmptyPositions | cpp/include/faircross/domain/account.hpp:60-78 | settling a positive fill never leaves a position of zero units |
| SettlementProperties.SettleAllEffect | cpp/src/engine/transition.cpp:12-27 | a successful settlement of positive fills keeps the account set, despite account creation, and moves totals by the fills' net |
| SettlementProperties.BalancedNetsToZero | cpp/src/engine/transition.cpp:29-45 | fills at one price that balance in quantity net to zero cash and zero inventory |
| SettlementProperties.TransitionConservesExactly | cpp/src/engine/transition.cpp:6-48 | of any positive fills, balanced or not, the transition accepts exactly those that settle, net to zero cash and to zero of every touched instrument, and start from representable totals |
| SettlementProperties.FillsAreEntries | cpp/src/engine/fill.cpp:5-36 | fill k carries number k and the order, account, side and quantity of one entry at the clearing price; entries stay in order and none with a fill is left out |
| SettlementProperties.GuardsNeverFire | cpp/src/engine/transition.cpp:6-48 | on balanced fills the transition succeeds exactly when every debit and credit does and the pre-totals it adds are representable: the conservation guards cannot fire |
| SettlementProperties.NothingFailsAfterClearing | cpp/src/engine/transition.cpp:50-76 | once a validated batch clears, allocation and fill generation cannot fail and the fills are exact, balanced and within every order's terms |
| SettlementSuccess.OwnFillsSettle | cpp/src/engine/transition.cpp:12-27 | settlement moves each account by exactly its own fills |
| SettlementSuccess.SettlementSucceedsExactly | cpp/src/engine/transition.cpp:12-27 | positive fills of one instrument settle if and only if every account exists before its first fill and after each of its own fills, in order, its cash fits 128 bits and its holding 64 |
| SettlementSuccess.InterleavingIsUnobservable | cpp/src/engine/transition.cpp:12-27 | two orders of the fills that agree account by account succeed together and reach the same ledger |
| SettlementSuccess.OwnOrderIsObservable | cpp/src/engine/transition.cpp:12-27 | inside one account the order of fills matters: a sale that pays for a purchase must come first |
| SettlementSuccess.ExecutionSucceedsExactly | cpp/src/engine/transition.cpp:50-76 | a validated batch executes if and only if each side fits 64 bits, the ledger's totals are representable and every account covers its own canonical fills in order |
| Checker.VerifyFills | cpp/src/engine/checker.cpp:50-98 | accepts exactly when every fill names an order, fits its size and limit and is price times quantity, and both sides execute the same total within 64 bits |
| Checker.VerifyPostState | cpp/src/engine/checker.cpp:100-158 | accepts exactly when cash and batch-instrument totals are representable and equal and the post-state matches the reconstruction |
| Checker.VerifyReconstruction | cpp/src/engine/checker.cpp:129-156 | accepts exactly when sizes are equal and each expected account matches in cash and batch-instrument holding |
| Checker.VerifyTransition | cpp/src/engine/checker.cpp:8-159 | decides re-derivation, fill checks, totals and account-by-account reconstruction, in that order |
| CheckerProperties.ReconstructsIsAgreement | cpp/src/engine/checker.cpp:129-156 | the size check plus the one-sided loop is full agreement of the account sets |
| CheckerProperties.CheckerCharacterisesExecution | cpp/src/engine/checker.cpp:8-159 | for every validated batch and every pre-ledger: accepted if and only if the pre-totals are representable, execution succeeds, outcome, allocation and fills are its own, and the post-ledger agrees in accounts, cash and batch-instrument inventory |
| CheckerProperties.ExecutionIsAccepted | cpp/src/engine/checker.cpp:8-159 | the checker accepts what execution produces from a representable ledger |
| Commitments.EncodeAccountInjective | cpp/include/faircross/domain/encoding.hpp:65-76 | distinct account records (id, cash, instrument, holding, salt) have distinct encodings |
| Commitments.EncodeOrderInjective | cpp/include/faircross/domain/encoding.hpp:49-63 | distinct salted orders have distinct encodings |
| Commitments.OrderLayout | cpp/include/faircross/domain/encoding.hpp:49-63 | an order commitment is 86 bytes: tag, version, then id, account, instrument, side, price, quantity and sequence number at fixed positions, least significant byte first, and the nonce |
| Commitments.AccountLayout | cpp/include/faircross/domain/encoding.hpp:65-76 | an account commitment is 77 bytes: tag, version, then id, cash, instrument and holding at fixed positions, least significant byte first, and the salt |
| Commitments.HeaderLayout | cpp/include/faircross/commitments/batch_commitment.hpp:35-47 | a batch header is tag, versions, batch, instrument, cutoff and order count at fixed positions, then the order root |
| Commitments.AbsenceMarker | cpp/include/faircross/commitments/oracle_commitment.hpp:25-37 | the committed absence of a snapshot spells its marker |
| Commitments.HistoryLayout | cpp/src/proof/recursive/state.cpp:42-50 | a history link is the predecessor, the header, then price and volume, least significant byte first |
| Commitments.CommitHistoryInjective | cpp/src/proof/recursive/state.cpp:42-50 | a history link determines its predecessor, header, price and volume |
| Merkle.MerkleTree.constructor | cpp/src/commitments/merkle.cpp:5-27 | the layer loop builds exactly the layers of pairwise combination with empty padding |
| Merkle.MerkleTree.PairUp | cpp/src/commitments/merkle.cpp:14-23 | one layer step: neighbours combined, an odd last node combined with the empty node |
| Merkle.MerkleTree.GetRoot | cpp/src/commitments/merkle.cpp:29-34 | the root of the committed leaves, the empty node for none |
| Merkle.MerkleTree.GenerateProof | cpp/src/commitments/merkle.cpp:36-59 | the authentication path of an existing index, nothing otherwise |
| Merkle.VerifyProof | cpp/include/faircross/commitments/merkle.hpp:25-35 | accepts exactly when folding the leaf along the path gives the expected root |
| Merkle.InclusionComplete | cpp/src/commitments/merkle.cpp:36-59 | for every leaf count and index the generated path verifies the leaf at that index |
| Merkle.InclusionSound | cpp/src/commitments/merkle.cpp:36-59 | along a generated path only the leaf at that index verifies |
| Merkle.AnyPathSound | cpp/include/faircross/commitments/merkle.hpp:25-35 | whatever path is presented, a leaf that verifies against the root is a committed leaf, at the index that the path spells, and the path is the generated one |
| Merkle.SmallTrees | cpp/src/commitments/merkle.cpp:5-34 | the trees of up to three leaves, node by node: left before right, the missing leaf is the empty node |
| Merkle.PathSpellsIndex | cpp/src/commitments/merkle.cpp:36-59 | the path spells the index in binary, lowest bit first: the sibling is on the left exactly at the one bits |
| Merkle.RootDeterminesLeaves | cpp/src/commitments/merkle.cpp:5-34 | equal roots come from equal leaf lists, for all lengths, despite odd padding |
| LedgerCommitment.ComputeLedgerRoot | cpp/include/faircross/commitments/ledger_commitment.hpp:57-75 | the Merkle root over account leaves in ascending account order; the empty node for an empty ledger |
| LedgerCommitment.AccountLeafStates | cpp/include/faircross/commitments/ledger_commitment.hpp:57-75 | an account leaf states its id, cash, instrument, holding and salt at fixed positions |
| LedgerCommitment.LedgerAccountProof | cpp/include/faircross/commitments/ledger_commitment.hpp:87-109 | present exactly for existing accounts; the leaf is that account's and its path folds to the ledger root |
| LedgerCommitment.RootDeterminesLedger | cpp/include/faircross/commitments/ledger_commitment.hpp:57-75 | equal roots mean the same account ids with the same cash, holding and salt, hence the same totals |
| LedgerCommitment.VerifiedBalanceIsHeld | cpp/include/faircross/commitments/ledger_commitment.hpp:77-109 | any path that verifies a claimed account against the root proves that the ledger holds exactly that balance |
| Accounting.BuildAccounting | cpp/src/engine/accounting.cpp:5-66 | tree and manifest of the preimages in order, each counter counting its disposition |
| Accounting.ImpliedAccounts | cpp/src/engine/accounting.cpp:29-53 | executed and open units of a disposition add up to the order, its kind says whether all, some or none executed, and an order without a fill reports neither |
| Accounting.VerifyAccounting | cpp/src/engine/accounting.cpp:68-146 | accepts exactly when counts agree, no leaf or id repeats, every record verifies, and every leaf is covered |
| Accounting.ScanRecords | cpp/src/engine/accounting.cpp:97-137 | the early-exit scan with its two seen-sets decides the record checks and leaves exactly the covered indices |
| Accounting.OmissionScanIsRedundant | cpp/src/engine/accounting.cpp:139-143 | records that pass already cover every leaf and every order id: the final loop never rejects |
| Accounting.AcceptedIsBijective | cpp/src/engine/accounting.cpp:68-146 | for unique ids, accepted exactly when records pair leaves 0..n-1 and batch ids one to one, each with its committed leaf and implied disposition |
| Accounting.BuiltManifestAccepted | cpp/src/engine/accounting.cpp:5-146 | a manifest built from preimages of exactly the batch's orders, in any order, is accepted |
| R1cs.Evaluate | cpp/include/faircross/proof/r1cs.hpp:86-107 | the loop computes the wrapped 128-bit evaluation |
| R1cs.ConstraintSystem.EnforceEqual | cpp/include/faircross/proof/r1cs.hpp:133-138 | appends the difference of the sides times one equals zero, and changes no counter |
| R1cs.ConstraintSystem.IsSatisfied | cpp/include/faircross/proof/r1cs.hpp:140-155 | true exactly when every constraint holds |
| R1cs.EvaluationCongruent | cpp/include/faircross/proof/r1cs.hpp:25-107 | the wrapped evaluation is congruent to the unbounded value modulo 2^128 |
| R1cs.ZerosAreUnobservable | cpp/include/faircross/proof/r1cs.hpp:86-105 | a variable without a scalar reads as zero: appending zeros to either vector changes no constraint |
| R1cs.HoldsMeans | cpp/include/faircross/proof/r1cs.hpp:140-155 | a constraint holds exactly when its product equation holds modulo 2^128 |
| R1cs.EqualityMeans | cpp/include/faircross/proof/r1cs.hpp:133-138 | an enforced equality holds exactly when the sides agree modulo 2^128, and exactly when they agree at all if they are less than 2^128 apart |
| OrderValidity.SynthesizeOrderValidity | cpp/src/proof/constraints/order_validity.cpp:6-79 | emits the gadgets and nine scalars of every order at consecutive witness indices, and returns the variables of each |
| OrderValidity.OrderConstraintsMean | cpp/src/proof/constraints/order_validity.cpp:37-72 | for every assignment, one order's constraints say: boolean side, batch instrument, position as sequence number, and each non-zero gadget |
| OrderValidity.OrderPartMeans | cpp/src/proof/constraints/order_validity.cpp:6-79 | for every assignment, satisfied exactly when the cells of every order satisfy its equations |
| OrderValidity.NonZeroGadgetMeans | cpp/src/proof/constraints/order_validity.cpp:55-72 | the gadget holds exactly when the value is zero or the inverse is one, so alone it does not exclude zero |
| OrderValidity.OrderPartHonest | cpp/src/proof/constraints/order_validity.cpp:6-79 | with the orders' own scalars, satisfied exactly when every order names the instrument and its sequence number is its position |
| AccountingConstraints.SynthesizeInclusion | cpp/src/proof/constraints/merkle_inclusion.cpp:6-45 | refuses a path that does not fold to the root; otherwise binds the projection of the root to the public variable |
| AccountingConstraints.SynthesizeAccounting | cpp/src/proof/constraints/complete_input_accounting.cpp:6-99 | succeeds exactly when the manifest is accounted and each record, by position, has its preimage's leaf and the allocation's disposition |
| ProverProperties.DispositionAgreesMeans | cpp/src/proof/constraints/complete_input_accounting.cpp:59-88 | the synthesizer's re-check of a disposition against the entries is the one that the order's executed quantity implies |
| AccountingConstraints.AccountingPartHonest | cpp/src/proof/constraints/complete_input_accounting.cpp:36-96 | records in leaf order satisfy the indices, the shared root and the cardinality equality |
| AccountingConstraints.AccountingPartMeans | cpp/src/proof/constraints/complete_input_accounting.cpp:34-96 | for every assignment: the index cells count from zero, every root cell is the published root scalar, and the published length is the record count |
| ClearingConstraints.SynthesizeClearing | cpp/src/proof/constraints/clearing_optimality.cpp:8-100 | succeeds exactly when the claimed outcome is the engine's, and emits one optimality slack per candidate price |
| ClearingConstraints.ClearingPartHonest | cpp/src/proof/constraints/clearing_optimality.cpp:38-96 | with price and volume public, satisfied exactly when no candidate executes more than the published volume |
| ClearingConstraints.ClearingPartMeans | cpp/src/proof/constraints/clearing_optimality.cpp:31-96 | for every assignment: each volume cell and its slack make up the published volume, demand and supply cells have the true product, and the last two cells are the published outcome |
| ClearingConstraints.AnyOutcomeIsSatisfiable | cpp/src/proof/constraints/clearing_optimality.cpp:38-96 | some assignment satisfies the subrelation for every published price and volume: the comparison with the engine during synthesis is what fixes the outcome |
| AllocationConstraints.SynthesizeAllocation | cpp/src/proof/constraints/allocation.cpp:7-96 | succeeds exactly when the allocation is the canonical one and every entry names an order |
| AllocationConstraints.AllocationPartHonest | cpp/src/proof/constraints/allocation.cpp:32-93 | an exact allocation satisfies the size, zero-fill and side-total constraints |
| AllocationConstraints.AllocationPartMeans | cpp/src/proof/constraints/allocation.cpp:27-93 | for every assignment and fewer than 2^64 entries: no fill out of the money, every other within its size, each side adding up to the published volume over the integers |
| FillConstraints.SynthesizeFillBounds | cpp/src/proof/constraints/fill_bounds.cpp:6-103 | succeeds exactly when every fill names an order it fits within size and limit |
| FillConstraints.ExecutedMeans | cpp/src/proof/constraints/fill_bounds.cpp:18-103 | with unique ids, synthesis refuses exactly a fill whose id no order carries, or beyond that order's quantity or limit |
| FillConstraints.HonestFill | cpp/src/proof/constraints/fill_bounds.cpp:36-99 | one fill's constraints hold exactly when it fits its order, its consideration's low 64 bits equal price times quantity, and the limit is respected |
| FillConstraints.FillBoundsPartHonest | cpp/src/proof/constraints/fill_bounds.cpp:15-103 | fills within terms satisfy the subrelation exactly when every consideration fits 64 bits |
| FillConstraints.FillBoundsPartMeans | cpp/src/proof/constraints/fill_bounds.cpp:13-103 | for every assignment: with the price in the first cell, every fill satisfies remaining quantity, consideration and limit slack |
| ConservationConstraints.SynthesizeConservation | cpp/src/proof/constraints/conservation.cpp:6-85 | emits per-account and global constraints over the ordered accounts, with each account's own fills |
| ConservationConstraints.AccountConstraintsMean | cpp/src/proof/constraints/conservation.cpp:45-77 | for every assignment, one account's wrapped constraints hold exactly when its balances move by its fills over the integers |
| ConservationConstraints.WrappedConservationIsExact | cpp/src/proof/constraints/conservation.cpp:6-85 | for every 64-bit assignment with fewer than 2^61 accounts and fills, the wrapped system holds exactly when every account and both totals balance over the integers |
| ConservationSatisfaction.NarrowDifference | cpp/src/proof/constraints/conservation.cpp:21-27 | low words differ by the true difference exactly when the dropped high words are equal |
| ConservationSatisfaction.LedgersPartHonest | cpp/src/proof/constraints/conservation.cpp:6-85 | a conserved settlement with 64-bit considerations satisfies the subrelation exactly when no account's cash crosses a multiple of 2^64 |
| RecordBinding.NormalizeRecords | cpp/src/proof/prover.cpp:62-91 | places every record at its leaf index and rejects out-of-range, repeated or mismatched ones |
| RecordBinding.NormalizedIsTheBoundPermutation | cpp/src/proof/prover.cpp:62-93 | succeeds exactly when the records are a permutation of a list bound leaf by leaf to order id and commitment, and returns that list |
| Prover.CommitPreimages | cpp/src/proof/prover.cpp:23-44 | leaf commitments of the preimages, or failure exactly when counts or any order differ |
| Prover.CheckPlaintext | cpp/src/proof/prover.cpp:95-145 | for a batch without reference prices, decides the transition, the accounting, both state roots and the oracle hash |
| Prover.Synthesize | cpp/src/proof/prover.cpp:148-230 | for a batch without reference prices, succeeds exactly when every synthesizer does; constraints and scalars are those of the concatenated subrelations, so allocated indices and pushed scalars line up |
| Prover.Prove | cpp/src/proof/prover.cpp:12-265 | for a batch without reference prices, a certificate exactly when all plaintext checks, all synthesizers and satisfaction pass, carrying the public inputs and the constraint count |
| ProverProperties.CheckedIsSynthesizable | cpp/src/proof/prover.cpp:148-230 | after the plaintext checks on a validated batch no synthesizer can refuse |
| ProverProperties.AccountingIsBuilt | cpp/src/proof/prover.cpp:62-127 | positional binding and the accounting check together accept exactly the permutations of the built records with their committed count; the counts per disposition are not read |
| ProverProperties.CheckedIsHonest | cpp/src/proof/prover.cpp:12-146 | for a validated batch the plaintext checks pass exactly on honest runs |
| ProverProperties.CircuitSatisfied | cpp/src/proof/prover.cpp:148-255 | a checked validated batch satisfies its circuit exactly when orders are numbered from zero, considerations fit 64 bits and no cash crosses a multiple of 2^64 |
| ProverProperties.ProvableExactly | cpp/src/proof/prover.cpp:12-265 | a validated batch is provable if and only if the run is honest and the three width conditions hold |
| ProverProperties.HeaderStates | cpp/src/proof/prover.cpp:43-55 | the header that a statement must carry states batch, instrument, cutoff, order count and order root at fixed positions |
| ProverSize.CertificateCounts | cpp/src/proof/prover.cpp:245-262 | the certificate carries its own statement and the constraint count: seven for an order with its record, two for a candidate price and for an account, five for the totals, and when the book crossed one for an entry, three for a fill and two more |
| ProverProperties.DispositionCountsAreNotRead | cpp/src/proof/prover.cpp:62-127 | replacing the counts per disposition of a manifest does not change whether a run is provable |
| ProverProperties.SmallHonestRunsAreProvable | cpp/src/proof/prover.cpp:12-265 | every honest run with balances and considerations below 2^64 and sequence numbers 0..n-1 is provable |
| ProverLimits.ExecutionIsHonest | cpp/src/proof/prover.cpp:12-146 | every validated batch of at most 2^32-1 orders that executes on a representable ledger has an honest statement and witness, with the manifest that accounting builds |
| ProverLimits.PairVerdict | cpp/src/proof/prover.cpp:12-265 | a crossing pair of any size executes honestly and is provable exactly under the width conditions |
| ProverLimits.NumberingFromOneIsRefused | cpp/src/proof/constraints/order_validity.cpp:50-53 | a concrete honest run whose sequence numbers start at one is refused |
| ProverLimits.WideConsiderationIsRefused | cpp/src/proof/constraints/fill_bounds.cpp:33-63 | a concrete honest run with a consideration of 2^64 is refused |
| ProverLimits.HighWordCrossingIsRefused | cpp/src/proof/constraints/conservation.cpp:21-27 | a concrete honest run whose buyer drops below 2^64 of cash is refused |
| Session.FoldStep | cpp/src/proof/recursive/state.cpp:6-59 | folds exactly when batch number (modulo 2^64), instrument, time and root continue and the step is provable; the new state has the step's post-root, number and time, and the extended history |
| Session.ProveSession | cpp/src/proof/recursive/prover.cpp:7-57 | succeeds exactly when the session is non-empty and every step folds from the state the steps before it reached; one proof per step |
| Session.VerifyBatchProof | cpp/src/proof/verifier.cpp:8-53 | accepts exactly version one, equal public inputs and a positive constraint count |
| Session.VerifySession | cpp/src/proof/recursive/verifier.cpp:8-76 | accepts exactly when version, boundary states and counts agree, every certificate passes and chains, and the replayed root and history are the final ones |
| Session.ProvedSessionsVerify | cpp/src/proof/recursive/verifier.cpp:27-75 | whatever session proving returns, session verification accepts |
| SessionProperties.SessionConserves | cpp/src/proof/recursive/state.cpp:11-59 | over any number of proved steps from any state, every ledger opening the first root and every ledger opening the last have equal total cash and instrument inventory |
| SessionProperties.FirstToLastConserved | cpp/src/proof/recursive/state.cpp:11-59 | total cash and instrument inventory of the last post-ledger equal those of the first pre-ledger |
| SessionProperties.StepsAreNumbered | cpp/src/proof/recursive/state.cpp:11-27 | the batch number advances by one per step modulo 2^64 and time never runs backwards |
| SessionProperties.GenesisCountsBatches | cpp/include/faircross/proof/recursive/state.hpp:18-26 | from genesis both the batch number and the history depth count the batches, and the instrument stays |
| SessionProperties.BoundariesDetermineSteps | cpp/src/proof/recursive/verifier.cpp:27-75 | two accepted sessions with equal boundary states have equally many steps and the same header, price and volume at each |
| SessionProperties.HeaderDeterminesBatch | cpp/src/proof/prover.cpp:46-60 | a shared header hash of two provable statements pins down batch, preimages, allocation and fills |
| SessionProperties.SharedBoundariesShareBatches | cpp/src/proof/recursive/prover.cpp:7-57 | two proved sessions with equal boundary states went through the same batches, allocations and fills |
| SessionProperties.SharedBoundariesShareLedgers | cpp/src/proof/recursive/prover.cpp:7-57 | two proved sessions with equal boundary states agree, before and after every step, in account set, cash and inventory of the instrument |
| SessionProperties.VerifiableBoundaries | cpp/src/proof/recursive/verifier.cpp:8-76 | some session between two states verifies if and only if the final history extends the initial one by at least one link: verification alone leaves both ledger roots, and so conservation, to proving |
| SessionProperties.BoundaryLabelsAreFree | cpp/src/proof/recursive/verifier.cpp:19-76 | batch number, time and instrument of either boundary can be replaced in an accepted session: only proving ties them to the steps |
| SessionProperties.AcceptedMeans | cpp/src/proof/recursive/verifier.cpp:8-76 | accepted if and only if version, boundaries and count are right, every certificate has version one and some constraint and starts at the root where the one before ended, and their links extend the first history to the last |
| Book.DepthAdded | cpp/src/marketdata/book.cpp:21-32 | a new order deepens exactly its own level, by its shares |
| Book.OrderBook.Add | cpp/src/marketdata/book.cpp:7-36 | adds a resting order exactly when price and shares are positive, the reference is new and the level total fits; otherwise nothing changes; the levels stay the sums |
| Book.OrderBook.Execute | cpp/src/marketdata/book.cpp:38-74 | reduces or removes exactly when the order rests with enough shares; neither subtraction saturates; an emptied level disappears |
| Book.OrderBook.Cancel | cpp/src/marketdata/book.cpp:76-78 | cancelling is executing |
| Book.OrderBook.Delete | cpp/src/marketdata/book.cpp:80-86 | removes the order exactly when it rests, through a full execution |
| Book.OrderBook.Replace | cpp/src/marketdata/book.cpp:88-145 | one update with exactly the success condition and result of deleting and re-adding on the same side; the inconsistency branch is unreachable; failure changes nothing |
| Book.OrderBook.ApplyMessage | cpp/src/marketdata/book.cpp:172-200 | every message sets the clock; it applies exactly under its own guards and then moves what rests and every level by its own fields; otherwise the book stays |
| Book.MessageMeans | cpp/src/marketdata/book.cpp:172-200 | for every kind of message: exactly when it applies, what rests under every reference afterwards, and the change of every level, in terms of the message's fields |
| Book.OrderBook.BestBid | cpp/src/marketdata/book.cpp:147-150 | the highest price at which a buy order rests, none exactly when none rests |
| Book.OrderBook.BestAsk | cpp/src/marketdata/book.cpp:152-155 | the lowest price at which a sell order rests, none exactly when none rests |
| Book.OrderBook.MidPrice | cpp/src/marketdata/book.cpp:157-170 | the floor midpoint of the best quotes exactly when both sides rest, also when crossed |
| Book.QuoteBounds | cpp/src/marketdata/book.cpp:147-155 | every resting buy order is at or below the bid, every sell order at or above the ask, and both quotes are prices that rest |
| Book.MidpointRoundsDown | cpp/src/marketdata/book.cpp:157-170 | the midpoint exists exactly when both sides rest and is half their sum rounded down |
| Book.ReplayEngine.ReplayMessages | cpp/src/marketdata/replay.cpp:6-30 | applies messages up to the first failure and records the true top of the book after each |
| Book.AddThenDeleteRestores | cpp/src/marketdata/book.cpp:7-86 | deleting what was just added restores the book |
| Book.ExecutionsAdd | cpp/src/marketdata/book.cpp:38-74 | two positive executions are one execution of their sum, also in failure |
| Book.RunsFit | cpp/src/marketdata/book.cpp:7-200 | on every run from the empty book no resting order is empty and every level total fits 64 bits |
| Sha256.PaddingMeetsTheStandard | cpp/src/commitments/sha256.cpp:120-135 | the padding is one marker bit, the fewest zero bits to 448 modulo 512, and 64 length bits (section 5.1.1 of FIPS 180-4) |
| Sha256.Sha256.Transform | cpp/src/commitments/sha256.cpp:60-102 | schedule and 64 rounds in place compute the compression of section 6.2.2 of FIPS 180-4 |
| Sha256Standard.ChooseSelects | cpp/src/commitments/sha256.cpp:23-25 | each bit of the selector picks the bit of one of the two words |
| Sha256Standard.MajorityAgrees | cpp/src/commitments/sha256.cpp:27-29 | wherever two words agree, the majority has their bit |
| Sha256Standard.RotrUndone | cpp/src/commitments/sha256.cpp:19-21 | a left rotation undoes the right rotation |
| Sha256Standard.BigSigma0Turns | cpp/src/commitments/sha256.cpp:31-33 | turns by 2, 13 and 22 bits, each by moving the lowest bits to the front |
| Sha256Standard.BigSigma1Turns | cpp/src/commitments/sha256.cpp:35-37 | turns by 6, 11 and 25 bits |
| Sha256Standard.SmallSigma0Turns | cpp/src/commitments/sha256.cpp:39-41 | turns by 7 and 18 bits and drops the lowest 3 |
| Sha256Standard.SmallSigma1Turns | cpp/src/commitments/sha256.cpp:43-45 | turns by 17 and 19 bits and drops the lowest 10 |
| Sha256Standard.ConstantsAreCubeRoots | cpp/src/commitments/sha256.cpp:8-17 | each round constant is the first 32 fractional bits of the cube root of its prime (section 4.2.2 of FIPS 180-4) |
| Sha256Standard.PrimesAscend | cpp/src/commitments/sha256.cpp:8-17 | those primes are 64 ascending primes from 2 to 311 |
| Sha256Standard.InitialIsSquareRoots | cpp/src/commitments/sha256.cpp:49-58 | the initial words are the first 32 fractional bits of the square roots of the first eight primes (section 5.3.3) |
| Sha256Example.HashAbc | cpp/tests/test_commitments.cpp:9-19 | hashing the three bytes of abc returns the published digest, proved through padding, schedule, 64 rounds and serialisation |
| Sha256.Sha256.Update | cpp/src/commitments/sha256.cpp:104-113 | the absorbed message grows by exactly the data |
| Sha256.Sha256.Finalize | cpp/src/commitments/sha256.cpp:119-146 | the digest is the block fold over the padded message, with the bit length modulo 2^64 |
| Sha256.Sha256.HashPieces | cpp/src/commitments/sha256.cpp:104-146 | any way of splitting a message across updates gives the digest of the whole |
| Sha256.WrappedDigestIsStandard | cpp/src/commitments/sha256.cpp:119-146 | below 2^61 bytes this is the digest of sections 5.1.1 and 6.2 of FIPS 180-4 |
| Sha256.PaddingIsInjective | cpp/src/commitments/sha256.cpp:120-135 | distinct messages have distinct padded messages |
| Sha256.CommitRawBytes | cpp/include/faircross/commitments/sha256.hpp:49-54 | hashes the leaf prefix followed by the payload |
| Sha256.CombineNodes | cpp/include/faircross/commitments/sha256.hpp:60-66 | hashes the node prefix followed by both children |
| Sha256.PrefixesSpell | cpp/include/faircross/commitments/sha256.hpp:45-47 | the three domain prefixes spell their names |
| Sha256.DomainsAreSeparate | cpp/include/faircross/commitments/sha256.hpp:45-72 | no byte string is hashed in two domains, and within a domain it determines what was committed |

## Left out

- Command line, fixtures, JSON and rendering: input and output around the core.
- Simulator, agents, random numbers, populations, intervals and metrics: workload generation.
- The ITCH byte parser and packet sources: the book starts from parsed messages.
- Oracle snapshots, freshness and collar: the model proves batches without reference prices, so the committed oracle value is the absence marker and the seventh subrelation is empty.
- The adversarial mutator and its matrix: a finite list of cases of the checker equivalence.
- Certificate and session text (`FC-R1CS-V1`, `FC-SESSION-PROOF-V1`): only the constraint count and the step proofs are kept.
- Error kinds and messages: every failure is `Err`.
- Side codes other than buy and sell, and the branches of batch creation and of the book that reject them: `Side` has two values.
- Account salt derivation and ledger blinding: a salt is a field of the account; hiding is not a property of the model.
- The account's own copy of its id: an account is found only under its map key.
- Fill numbers and container sizes are unbounded: fewer than 2^64 fills and records fit in memory.
- Real collision resistance: assumed as structure of the symbolic digest; `Sha256` does not claim it.
- Constraint labels and the complexity metrics returned by clearing synthesis: they do not affect satisfaction.
- In-place sorting of the order vector and of the candidate vectors: sorting is a function on sequences, so the intermediate states of the sort are not modelled.
- Ledgers.Ledger.GetOrCreateAccount: returns the account as a value, not a reference; an update is written back to the ledger by `Commit`.
- LedgerCommitment.ComputeLedgerRoot: leaves are symbolic, so the root is a term and not 32 bytes.
- Checker.VerifyReconstruction: the loop over expected accounts visits them in an unspecified order, because only the verdict is observable once error messages are dropped.
- Prover.CheckPlaintext: a witness that carries an oracle snapshot and policy is not modelled; without them the committed value is the absence marker.
- Prover.Synthesize: the oracle subrelation is not modelled; the source appends it last and only with a snapshot, a policy and a clearing price.
- Prover.Prove: does not model batches with an oracle snapshot, and keeps of the certificate text only the constraint count.
- Session.VerifyBatchProof: the parsing of the certificate text is replaced by its constraint count.
