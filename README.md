# Sequence miner: inference and re-estimation core

This project models the engine at the centre of the sequence miner.

- **Transactions.** Each transaction is an ordered list of items. It keeps a cache that maps generators (sequences of items) to probabilities. It also stores a covering of itself by generators, and a temporary covering used while a candidate is on trial.
- **The cost model.** A transaction prices a covering as a sum of `-log p` terms plus an ordering term `sumLogRange(l+1, l+size) - sumLogRange(1, size)`. Here `l` is a running length that grows as the cache is iterated.
- **The greedy decoder** (`InferGreedy.infer`). It repeatedly adds the generator with the lowest marginal cost per item among those that still cover a new position. When none qualifies, it fills the rest with one-item sequences.
- **The EM steps.**
  - Hard EM: decode, re-estimate each generator as the fraction of coverings containing it, then refresh every cache.
  - The structural trial of a candidate.
  - Acceptance of a candidate.
  - The average cost.
  - The distribution of multiplicities.

The modules are:

- `Sequences`: items, generators, the subsequence test and positions.
- `LogMath`: an uninterpreted `Log`, an abstract positive `Eps` and `sumLogRange`.
- `ExtendedReals`: doubles with IEEE infinities and NaN, as the decoder compares them.
- `TransactionCache`: the `Transaction` class and its cost model.
- `InferenceAlgorithms`: the greedy decoder.
- `EMStep`: the EM steps and the `TransactionDatabase` class.

Modelling choices:

- **`Math.log` is left uninterpreted.** Every proved property therefore holds for any logarithm.
- **`getCovered` is a function parameter.** It is constrained only by `CoversWithin`: it returns positions inside the transaction that are not yet covered.
- **Hash-map iteration order is a parameter.** For the decoder it is the parameter `order`. For the cost loops it is a nondeterministic choice.
- **The inference algorithm is a parameter of the EM steps.**
- **Each EM step is specified by a function on the transactions' states (`EMStep.View`).** Every method is proved to leave the objects in exactly that function's result.
- **The decoder reads the cache as a table** from generator to multiplicity to probability, as its source does (InferenceAlgorithms.java line 39). The `Transaction` class holds the flat generator-to-probability map of its own source.

## Model

| member | source | states |
|---|---|---|
| Sequences.ContainsSingleton | src/main/java/sequencemining/transaction/Transaction.java:30-33 | a one-item generator is contained in a transaction exactly when its item occurs there (the singleton seeding test) |
| LogMath.SumLogRangeLoop | src/main/java/sequencemining/transaction/Transaction.java:106-111 | the accumulating loop of `sumLogRange` computes log(a) + ... + log(b), and 0 for an empty range |
| LogMath.SumLogRangeSplit | sequence-miner/src/main/java/sequencemining/main/InferenceAlgorithms.java:109-114 | adjacent ranges add up: sumLogRange(a, m) + sumLogRange(m+1, b) = sumLogRange(a, b) |
| ExtendedReals.LessIsStrictTotalOrder | sequence-miner/src/main/java/sequencemining/main/InferenceAlgorithms.java:71 | the double `<` is irreflexive and transitive, total without NaN, and false whenever NaN is involved |
| TransactionCache.RefreshedKeys | src/main/java/sequencemining/transaction/Transaction.java:48-59 | refreshing the cache never adds a generator and never drops a one-item generator |
| TransactionCache.RefreshedIdempotent | src/main/java/sequencemining/transaction/Transaction.java:48-59 | refreshing twice with the same map is the same as refreshing once |
| TransactionCache.RefreshedForgetsValues | src/main/java/sequencemining/transaction/Transaction.java:48-59 | the refreshed cache depends on the old cache only through its keys |
| TransactionCache.InOrderSnoc | src/main/java/sequencemining/transaction/Transaction.java:65-73 | visiting one more generator adds its running term to the cost and its size (when used) to the running length |
| TransactionCache.AddRunningTerm | src/main/java/sequencemining/transaction/Transaction.java:67-72 | one step of the cost loop: the used term with the ordering term at the current running length, or `-log(1-p)` |
| TransactionCache.RunningTermTelescopes | src/main/java/sequencemining/transaction/Transaction.java:68-70 | a generator's ordering term telescopes: its running term plus sumLogRange(1, l) is its order-free term plus sumLogRange(1, l + size) |
| TransactionCache.CostInOrderTelescopes | src/main/java/sequencemining/transaction/Transaction.java:62-75 | the cost accumulated in any visiting order is the sum of order-free terms plus sumLogRange(1, L), L the total size of the used generators |
| TransactionCache.RunningLengthIsUsedLength | src/main/java/sequencemining/transaction/Transaction.java:70 | the final running length is the total size of the used generators, whatever the order |
| TransactionCache.VisitedAll | src/main/java/sequencemining/transaction/Transaction.java:91-102 | a loop that visits exactly the priced cached generators, once each, has accumulated the order-free covering cost |
| TransactionCache.CostIndependentOfOrder | src/main/java/sequencemining/transaction/Transaction.java:62-75 | the cost does not depend on the iteration order of the cache |
| TransactionCache.CostIgnoresMultiplicity | src/main/java/sequencemining/transaction/Transaction.java:67 | only whether the covering contains a generator matters, not how many times |
| TransactionCache.CostUnderAgreeingMap | src/main/java/sequencemining/transaction/Transaction.java:78-104 | pricing with a map that agrees with the cache on every cached generator gives the hard-EM cost |
| TransactionCache.Transaction.constructor | src/main/java/sequencemining/transaction/Transaction.java:152-154 | a new transaction holds its items |
| TransactionCache.Transaction.InitializeCachedSequences | src/main/java/sequencemining/transaction/Transaction.java:28-34 | the cache keys are exactly the counted singletons the transaction contains, each valued count / noTransactions, so every cached generator is contained in the transaction |
| TransactionCache.Transaction.AddSequenceCache | src/main/java/sequencemining/transaction/Transaction.java:40-42 | the candidate takes the given value, overwriting any old one; nothing else changes |
| TransactionCache.Transaction.RemoveSequenceCache | src/main/java/sequencemining/transaction/Transaction.java:44-46 | only the candidate's entry is removed |
| TransactionCache.Transaction.UpdateCachedSequences | src/main/java/sequencemining/transaction/Transaction.java:48-59 | a key of the new map takes its value, an absent one-item key becomes 0, an absent longer key is removed, and no key is added |
| TransactionCache.Transaction.GetCachedCost | src/main/java/sequencemining/transaction/Transaction.java:62-75 | the loop's total equals the order-free cost of the stored covering priced by the cache itself |
| TransactionCache.Transaction.GetCachedCostUnder | src/main/java/sequencemining/transaction/Transaction.java:78-80 | the cost of the stored covering priced by the supplied map |
| TransactionCache.Transaction.GetTempCachedCost | src/main/java/sequencemining/transaction/Transaction.java:83-85 | the cost of the temporary covering priced by the supplied map |
| TransactionCache.Transaction.CalculateCachedCost | src/main/java/sequencemining/transaction/Transaction.java:88-104 | the loop's total equals the order-free cost over the cached generators that the map prices; the log terms use the supplied probability and the zero test uses the cached one |
| TransactionCache.Transaction.SetCachedCovering | src/main/java/sequencemining/transaction/Transaction.java:113-115 | stores the covering |
| TransactionCache.Transaction.SetTempCachedCovering | src/main/java/sequencemining/transaction/Transaction.java:121-123 | stores the temporary covering |
| InferenceAlgorithms.SmoothedCostFinite | sequence-miner/src/main/java/sequencemining/main/InferenceAlgorithms.java:59-69 | when multiplicity occur+1, or a later one, has a nonzero probability, smoothing keeps the marginal cost finite |
| InferenceAlgorithms.TailZeroNeverChosen | sequence-miner/src/main/java/sequencemining/main/InferenceAlgorithms.java:59-71 | a missing entry for occur+1, or a zero entry with only zeros after it, gives a cost that is not below +inf, so it is never chosen |
| InferenceAlgorithms.IsInnerProb | sequence-miner/src/main/java/sequencemining/main/InferenceAlgorithms.java:101-107 | true exactly when some multiplicity from probIndex+1 to size-1 has a nonzero probability |
| InferenceAlgorithms.MarginalCostPerItem | sequence-miner/src/main/java/sequencemining/main/InferenceAlgorithms.java:59-69 | the cost per item: a missing occur+1 entry is probability 0, an inner zero becomes `Double.MIN_VALUE`, and the result is (-log p1 + log p + sumLogRange(l+1, l+size)) / size in IEEE arithmetic |
| InferenceAlgorithms.SelectBest | sequence-miner/src/main/java/sequencemining/main/InferenceAlgorithms.java:42-77 | the chosen generator covers something new and its cost is below +inf; no candidate is strictly cheaper; it is strictly cheaper than every earlier candidate whose cost is not NaN; there is no choice only when every candidate costs at least +inf or NaN; the first candidate without an entry for its multiplicity is reported |
| InferenceAlgorithms.OneItemClaimsGenerators | sequence-miner/src/main/java/sequencemining/main/InferenceAlgorithms.java:88-93 | the generators of the one-item instances of every position are the one-item sequences of the transaction |
| InferenceAlgorithms.NextClearBit | sequence-miner/src/main/java/sequencemining/main/InferenceAlgorithms.java:89 | returns the first position at or after `from` that is not covered |
| InferenceAlgorithms.FillingStep | sequence-miner/src/main/java/sequencemining/main/InferenceAlgorithms.java:88-93 | claiming the next clear position with its one-item sequence keeps the instances disjoint and strictly grows the covered set |
| InferenceAlgorithms.FillingDone | sequence-miner/src/main/java/sequencemining/main/InferenceAlgorithms.java:88 | once every position is covered, the instances partition the transaction; from an empty start they are the one-item instances in position order |
| InferenceAlgorithms.FillWithOneItemSequences | sequence-miner/src/main/java/sequencemining/main/InferenceAlgorithms.java:86-94 | the fallback terminates and ends with a partition of the positions: the greedy instances followed by one-item instances; with no greedy instance, the one-item instances of every position in increasing order |
| InferenceAlgorithms.GreedyStep | sequence-miner/src/main/java/sequencemining/main/InferenceAlgorithms.java:83-85 | adding the round's selection keeps the instances disjoint, adds one to the generator's multiplicity and its size to the total length, records the round, and strictly grows the covered set |
| InferenceAlgorithms.GreedyRoundsStep | sequence-miner/src/main/java/sequencemining/main/InferenceAlgorithms.java:79-85 | a round selected at the state the earlier instances leave extends the history of rounds by one |
| InferenceAlgorithms.AddBest | sequence-miner/src/main/java/sequencemining/main/InferenceAlgorithms.java:42-85 | one round: a missing entry is reported only for the first candidate (in iteration order) with no entry for its current multiplicity, every earlier candidate having one (and its row is shorter than the instances so far); with no selection every candidate has an entry and none costs below +inf; otherwise every candidate has an entry and the best candidate is added, the state stays consistent (covering, `lenCovering` the total size of the generators, covered positions) and the covered set grows |
| InferenceAlgorithms.GreedyLoop | sequence-miner/src/main/java/sequencemining/main/InferenceAlgorithms.java:40-85 | the rounds terminate; every instance was the best candidate of its round at the state the earlier ones left, a round where every candidate had an entry; they end with every position covered, with every candidate having an entry and none below +inf while positions remain, or with the first candidate lacking an entry at the state the rounds leave, whose row is shorter than the transaction |
| InferenceAlgorithms.ClaimsStep | sequence-miner/src/main/java/sequencemining/main/InferenceAlgorithms.java:83-85 | an instance with new, non-empty positions keeps the claims disjoint and adds exactly its positions, its generator and its size |
| InferenceAlgorithms.InferGreedy | sequence-miner/src/main/java/sequencemining/main/InferenceAlgorithms.java:32-99 | it terminates; a covering partitions the positions with one instance per element of the multiset; the instances start with the greedy rounds, each the cheapest candidate per item (first among equals) at the covering, `lenCovering` and covered positions the earlier rounds leave, in a round where every candidate's lookup finds an entry; any further instances are one-item instances, added only once every candidate has an entry and none costs below +inf; a missing entry is reported only after the greedy rounds, for the first candidate at the state they leave whose current multiplicity has no entry, every earlier candidate having one, and cannot happen when every row has an entry per position; an empty cache gives the one-item sequences of every position |
| InferenceAlgorithms.MissingRowIsShort | sequence-miner/src/main/java/sequencemining/main/InferenceAlgorithms.java:64 | with dense rows, a lookup for multiplicity k misses only when the row has at most k entries |
| InferenceAlgorithms.FilledFromTable | sequence-miner/src/main/java/sequencemining/main/InferenceAlgorithms.java:83-91 | every instance of the final covering is a cached generator or a one-item sequence |
| EMStep.GroupCountsCounts | src/main/java/sequencemining/main/EMStep.java:38-42 | the counting fold counts, for every generator, exactly the coverings that hold it, and knows no other generator |
| EMStep.NewSequences | src/main/java/sequencemining/main/EMStep.java:38-46 | a generator is a key exactly when some covering contains it; its value is the fraction of coverings containing it, each counted once, and lies in (0, 1] |
| EMStep.SupportingBounds | src/main/java/sequencemining/main/EMStep.java:45-46 | a generator that occurs is supported by at least one and at most all coverings, so its fraction lies in (0, 1] |
| EMStep.CountDistribution | src/main/java/sequencemining/main/EMStep.java:128-143 | entry (g, k) exists exactly when k >= 1 and some covering holds g exactly k times; its value is the fraction of coverings that do |
| EMStep.RowSumUpTo | src/main/java/sequencemining/main/EMStep.java:132-140 | the row of g summed over multiplicities 1..k is the fraction of coverings holding g between 1 and k times |
| EMStep.RowSumIsProbability | src/main/java/sequencemining/main/EMStep.java:38-46 | summed over all multiplicities, the row of g in the count distribution equals hard EM's probability for g (0 when g occurs nowhere) |
| EMStep.Seed | src/main/java/sequencemining/main/EMStep.java:26-30 | every cache holds exactly the counted singletons its transaction contains, valued count / number of transactions; nothing else changes |
| EMStep.HardEM | src/main/java/sequencemining/main/EMStep.java:33-52 | each transaction stores its decoded covering; the probabilities are re-estimated from the stored coverings, so their keys are exactly the generators of some decoded covering; every cache is refreshed from them |
| EMStep.HardEMShrinksCaches | src/main/java/sequencemining/main/EMStep.java:49 | hard EM never adds a generator to a cache, and every cached value afterwards is a probability in [0, 1] |
| EMStep.AverageCost | src/main/java/sequencemining/main/EMStep.java:55-59 | the average is the sum of the hard-EM costs divided by the number of transactions; with no transactions it is NaN |
| EMStep.StructuralEMRemovesCandidate | src/main/java/sequencemining/main/EMStep.java:67-91 | after a trial no cache holds the candidate, every other entry and every stored covering is as before, and only supporting transactions get a new temporary covering, decoded with the candidate at 1.0 |
| EMStep.StructuralEMRestores | src/main/java/sequencemining/main/EMStep.java:68-91 | a transaction whose cache did not hold the candidate ends the trial as it began, apart from its temporary covering |
| EMStep.StructuralEMProbability | src/main/java/sequencemining/main/EMStep.java:79-98 | the candidate's probability is in [0, 1], and it is 0 exactly when no trial covering contains the candidate |
| EMStep.AcceptCandidate | src/main/java/sequencemining/main/EMStep.java:102-125 | supporting transactions store their temporary covering and cache the candidate at `prob`; the probabilities are re-estimated from the stored coverings; every cache is refreshed from them |
| EMStep.AcceptedCandidateCached | src/main/java/sequencemining/main/EMStep.java:108-122 | after acceptance a supporting transaction still caches the candidate exactly when some covering contains it or it is one item long, valued at its new probability when it has one |
| EMStep.CachesStaySupported | src/main/java/sequencemining/main/EMStep.java:26-125 | seeding caches only generators the transaction contains, and hard EM, a structural trial and an acceptance keep it so |
| EMStep.InitializeCachedItemsets | src/main/java/sequencemining/main/EMStep.java:26-30 | the transactions end in the state `Seed` describes |
| EMStep.SeedCache | src/main/java/sequencemining/main/EMStep.java:29 | one transaction's cache is seeded and holds only generators it contains; nothing else changes |
| EMStep.Decode | src/main/java/sequencemining/main/EMStep.java:38-41 | one transaction stores the covering the decoder finds under its cache and returns it; nothing else changes |
| EMStep.Refresh | src/main/java/sequencemining/main/EMStep.java:49 | one transaction's cache is refreshed from the new probabilities and still holds only contained generators |
| EMStep.TrialDecode | src/main/java/sequencemining/main/EMStep.java:68-75 | a supporting transaction caches the candidate at 1.0 and stores its decoded temporary covering; the covering it contributes is that one, or the stored one for a non-supporting transaction |
| EMStep.TrialCostAndRemove | src/main/java/sequencemining/main/EMStep.java:83-90 | the cost is the temporary or the stored covering's, priced by the trial's probabilities, and the candidate leaves the cache |
| EMStep.Accept | src/main/java/sequencemining/main/EMStep.java:107-114 | a supporting transaction caches the candidate at `prob` and stores its temporary covering; the returned covering is the stored one |
| EMStep.DecodeAll | src/main/java/sequencemining/main/EMStep.java:38-42 | every transaction stores the covering the decoder finds under its cache, and the returned coverings are those stored ones, in transaction order |
| EMStep.RefreshAll | src/main/java/sequencemining/main/EMStep.java:49 | every transaction's cache is refreshed from the new probabilities, as `RefreshedViews` of the old states; nothing else changes |
| EMStep.TrialEStep | src/main/java/sequencemining/main/EMStep.java:68-76 | supporting transactions cache the candidate at 1.0 and store a decoded temporary covering; the returned coverings are those temporary ones for supporting transactions and the stored ones for the others |
| EMStep.TrialCostPass | src/main/java/sequencemining/main/EMStep.java:83-91 | the returned sum is the sum of every transaction's trial cost under the new probabilities, and every cache loses the candidate |
| EMStep.AcceptAll | src/main/java/sequencemining/main/EMStep.java:107-115 | supporting transactions cache the candidate at `prob` and store their temporary covering; the returned coverings are the stored ones |
| EMStep.StructuralEM | src/main/java/sequencemining/main/EMStep.java:63-99 | a trial keeps one state per transaction, never changes a transaction's items or stored covering, and leaves each cache as it was without the candidate |
| EMStep.HardEMStep | src/main/java/sequencemining/main/EMStep.java:33-52 | the result and the transactions' new states are those of `HardEM` |
| EMStep.CalculateAndSetAverageCost | src/main/java/sequencemining/main/EMStep.java:55-60 | the database's average cost becomes `AverageCost` of the transactions |
| EMStep.StructuralEMStep | src/main/java/sequencemining/main/EMStep.java:63-99 | the returned cost and probability and the transactions' new states are those of `StructuralEM` |
| EMStep.AddAcceptedCandidateCache | src/main/java/sequencemining/main/EMStep.java:102-125 | the result and the transactions' new states are those of `AcceptCandidate` |

## Left out

- **Parallel streams.** Each stream in EMStep.java is a sequential loop over the transaction list. The reductions are sums and counts; the model adds the costs from left to right.
- **Floating point.**
  - The transaction cost model computes in exact reals with an uninterpreted `Log`. Rounding is not modelled, and neither are the IEEE infinities of `-log 0` inside that sum.
  - The decoder models +inf, -inf and NaN, because its choice depends on them, but not rounding.
  - `count / n` is exact.
- **The zero test.** The cost loops test `!entry.getValue().equals(0.)`. Java's `Double.equals` treats `-0.0` as different from `0.0`. The model has a single real zero, so a `-0.0` probability counts as zero here.
- **Integer widths.** `int` lengths and `long` counts are unbounded; overflow is not modelled.
- **`Sequence`, `AbstractSequence.contains` and `getCovered`.** Their classes are not part of this model.
  - `contains` is modelled as the subsequence relation.
  - `getCovered` is a parameter that satisfies the documented no-overlap assumption.
- **`TransactionDatabase`** is not part of this model beyond a list of transactions and an average cost. Its starting average cost of `Finite(0.0)` stands for Java's default `double` field value.
- **Distinct transaction objects.** The EM methods require the transaction list to hold no object twice. A list that repeats one object, so that one transaction's updates reach another list slot, is not modelled.
- **The decoder's table view of the cache.** The decoder reads `Table<Sequence,Integer,Double>`, while the `Transaction` class shown holds a flat map. The two are modelled separately, and the EM steps take the decoder as a parameter on the flat cache.
- **InferGreedy's inputs.**
  - `InferenceAlgorithms.InferGreedy` requires dense, non-empty rows. `isInnerProb` reads every index below `size()`, and Guava never stores an empty row.
  - The unguarded unboxing of a missing `(seq, occur)` entry, which is a `NullPointerException`, is the result `MissingEntry`.
- **Null fields and getters.** Fields that start out null in Java start out empty here. The getters `getCachedSequences`, `getCachedCovering` and `getTempCachedCovering` are direct field reads.
- **The other `Transaction` constructors** (Transaction.java lines 132 and 142) build the same state as the list constructor.
- **`EMStep.StructuralEMStep`.** The source removes the candidate from every cache after a trial. A candidate that a transaction cached before the trial is therefore lost, and the model keeps that behaviour: `EMStep.StructuralEMRestores` holds only when the candidate was not cached before.
- **Out of scope.** The evaluation drivers, the synthetic data generator, the plotting script and the commented-out `InferGreedyOld` are outside the modelled core: they are I/O, randomness, UI or dead code.
