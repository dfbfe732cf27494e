/**
 * The greedy decoder (InferGreedy.infer): builds a covering of one
 * transaction by repeatedly adding the cached generator with the least
 * marginal cost per item, and falls back to one-item generators when no
 * cached generator can be chosen.
 *
 * The decoder reads a multiplicity table (generator -> multiplicity ->
 * probability). The transaction's own method that finds the positions a
 * generator would newly cover (`getCovered`) and the iteration order of the
 * table's generators are parameters.
 */
module InferenceAlgorithms {
  import opened Sequences
  import opened LogMath
  import opened ExtendedReals

  /** Multiplicity -> probability for one generator. */
  type Row = map<nat, real>

  /** Generator -> multiplicity -> probability. */
  type Table = map<Sequence, Row>

  /** `getCovered(g, covered)`: the positions generator `g` would claim, given those already claimed. */
  type CoverFunction = (Sequence, set<nat>) -> set<nat>

  /** One generator instance placed in the covering, with the positions it claims. */
  datatype Claim = Claim(generator: Sequence, positions: set<nat>)

  /** The decoder's result: a covering, or the lookup of a missing multiplicity entry (a NullPointerException). */
  datatype Inference = Covering(covering: multiset<Sequence>) | MissingEntry(generator: Sequence, multiplicity: nat)

  /** One round's selection: the index in the iteration order of the chosen generator, none, or a missing entry. */
  datatype Choice = NoChoice | Chosen(index: nat, newlyCovered: set<nat>) | Missing(index: nat, multiplicity: nat)

  /** How the greedy rounds end: every position covered, no candidate below +inf, or a missing entry. */
  datatype Halt = AllCovered | Stuck | Missed(index: nat, multiplicity: nat)

  // ---------------------------------------------------------------------------
  // Assumptions on the inputs
  // ---------------------------------------------------------------------------

  /** The row's multiplicities are exactly 0 .. size-1 (what `isInnerProb` indexes). */
  ghost predicate Dense(row: Row)
  {
    forall k: nat :: k in row <==> k < |row|
  }

  /** Every row is dense and, as in a Guava table, not empty. */
  ghost predicate WellFormedTable(table: Table)
  {
    forall g :: g in table ==> |table[g]| > 0 && Dense(table[g])
  }

  /** `order` lists the table's generators, each once: the iteration order of `rowKeySet()`. */
  ghost predicate Enumerates(order: seq<Sequence>, table: Table)
  {
    && (forall g :: g in order <==> g in table)
    && Distinct(order)
  }

  /** What the decoder assumes of `getCovered`: positions of the transaction not yet claimed. */
  ghost predicate CoversWithin(getCovered: CoverFunction, n: nat)
  {
    forall g, covered, p :: p in getCovered(g, covered) ==> p < n && p !in covered
  }

  // ---------------------------------------------------------------------------
  // Smoothing and the marginal cost
  // ---------------------------------------------------------------------------

  /** Some multiplicity above `k` has a nonzero probability (`isInnerProb(k, row)`). */
  ghost predicate HasLaterNonzero(row: Row, k: nat)
  {
    exists i: nat :: k < i < |row| && i in row && row[i] != 0.0
  }

  /**
   * The probability used for multiplicity `k`: 0 when the entry is missing,
   * `Eps` for an inner zero, the entry otherwise.
   */
  ghost function Smoothed(row: Row, k: nat): real
  {
    if k !in row then 0.0
    else if row[k] == 0.0 && HasLaterNonzero(row, k) then Eps
    else row[k]
  }

  /**
   * The cost per item of adding one more instance of a generator of `size`
   * items that the covering holds `occur` times, the covering having
   * `lenCovering` items: (-log p(occur+1) + log p(occur) +
   * sumLogRange(lenCovering+1, lenCovering+size)) / size.
   */
  ghost function CostPerItem(row: Row, occur: nat, lenCovering: nat, size: nat): XReal
  {
    var cost := Plus(Plus(Neg(LogOf(Smoothed(row, occur + 1))), LogOf(Smoothed(row, occur))),
                     Finite(SumLogRange(lenCovering + 1, lenCovering + size)));
    DivBy(cost, size)
  }

  /**
   * Smoothing keeps costs finite: with non-negative entries, when multiplicity
   * occur+1 or a later one has a nonzero probability the marginal cost is
   * finite.
   */
  lemma SmoothedCostFinite(row: Row, occur: nat, lenCovering: nat, size: nat)
    requires Dense(row) && forall k :: k in row ==> row[k] >= 0.0
    requires size > 0
    requires occur + 1 in row && (row[occur + 1] != 0.0 || HasLaterNonzero(row, occur + 1))
    ensures CostPerItem(row, occur, lenCovering, size).Finite?
  {
    if row[occur + 1] == 0.0 {
      var i: nat :| occur + 1 < i < |row| && i in row && row[i] != 0.0;
      assert HasLaterNonzero(row, occur);
    } else {
      assert HasLaterNonzero(row, occur);
    }
  }

  /**
   * A genuine tail zero is never chosen: when multiplicity occur+1 has no
   * entry, or a zero entry with only zeros after it, the cost per item is
   * +inf or NaN, and neither is below +inf.
   */
  lemma TailZeroNeverChosen(row: Row, occur: nat, lenCovering: nat, size: nat)
    requires occur + 1 !in row || (row[occur + 1] == 0.0 && !HasLaterNonzero(row, occur + 1))
    ensures !Less(CostPerItem(row, occur, lenCovering, size), PosInf)
  {
  }

  /** `isInnerProb`: scan the multiplicities above `probIndex` for a nonzero probability. */
  method IsInnerProb(probIndex: nat, probVec: Row) returns (inner: bool)
    requires Dense(probVec)
    ensures inner <==> HasLaterNonzero(probVec, probIndex)
  {
    var i := probIndex + 1;
    while i < |probVec|
      invariant probIndex < i
      invariant forall j: nat :: probIndex < j < i && j < |probVec| ==> probVec[j] == 0.0
    {
      if probVec[i] != 0.0 {
        return true;
      }
      i := i + 1;
    }
    return false;
  }

  /** The cost per item of one candidate, computed as the decoder does. */
  method MarginalCostPerItem(row: Row, occur: nat, lenCovering: nat, size: nat) returns (costPerItem: XReal)
    requires Dense(row) && occur in row
    ensures costPerItem == CostPerItem(row, occur, lenCovering, size)
  {
    var prob1: real;
    if occur + 1 !in row {
      prob1 := 0.0;
    } else {
      prob1 := row[occur + 1];
      if prob1 == 0.0 {
        var inner := IsInnerProb(occur + 1, row);
        if inner {
          prob1 := Eps;
        }
      }
    }
    var prob := row[occur];
    if prob == 0.0 {
      var inner := IsInnerProb(occur, row);
      if inner {
        prob := Eps;
      }
    }
    var orderCost := SumLogRangeLoop(lenCovering + 1, lenCovering + size);
    var cost := Plus(Plus(Neg(LogOf(prob1)), LogOf(prob)), Finite(orderCost));
    costPerItem := DivBy(cost, size);
  }

  // ---------------------------------------------------------------------------
  // One greedy round
  // ---------------------------------------------------------------------------

  /** The i-th generator of the order covers some position not yet claimed. */
  ghost predicate IsCandidate(order: seq<Sequence>, covered: set<nat>, getCovered: CoverFunction, i: nat)
    requires i < |order|
  {
    getCovered(order[i], covered) != {}
  }

  /** The table has an entry for the generator's current multiplicity in the covering. */
  ghost predicate HasEntry(table: Table, covering: multiset<Sequence>, g: Sequence)
    requires g in table
  {
    covering[g] in table[g]
  }

  ghost function PerItemCost(table: Table, covering: multiset<Sequence>, lenCovering: nat, g: Sequence): XReal
    requires g in table
  {
    CostPerItem(table[g], covering[g], lenCovering, |g|)
  }

  /** The cost per item of every generator of the order, at one state of the covering. */
  ghost method CostsOf(order: seq<Sequence>, table: Table, covering: multiset<Sequence>, lenCovering: nat)
    returns (costs: seq<XReal>)
    requires forall g :: g in order ==> g in table
    ensures |costs| == |order|
    ensures forall j {:trigger PerItemCost(table, covering, lenCovering, order[j])} ::
      0 <= j < |order| ==> costs[j] == PerItemCost(table, covering, lenCovering, order[j])
  {
    costs := seq(|order|, j requires 0 <= j < |order| => PerItemCost(table, covering, lenCovering, order[j]));
  }

  /** Which generators of the order are candidates, given the positions already covered. */
  ghost method CandidatesOf(order: seq<Sequence>, covered: set<nat>, getCovered: CoverFunction)
    returns (candidates: seq<bool>)
    ensures |candidates| == |order|
    ensures forall j {:trigger IsCandidate(order, covered, getCovered, j)} ::
      0 <= j < |order| ==> candidates[j] == IsCandidate(order, covered, getCovered, j)
  {
    candidates := seq(|order|, j requires 0 <= j < |order| => IsCandidate(order, covered, getCovered, j));
  }

  /**
   * The selection after the first `i` generators: with no choice, no candidate
   * so far is below +inf; with a choice, its cost `min` is below +inf, no
   * candidate so far is strictly cheaper, and it is strictly cheaper than every
   * earlier candidate whose cost is not NaN.
   */
  ghost predicate BestSoFar(costs: seq<XReal>, candidates: seq<bool>, i: nat, choice: Choice, min: XReal)
    requires i <= |costs| == |candidates|
  {
    match choice
    case Missing(_, _) => false
    case NoChoice =>
      && min == PosInf
      && forall j :: 0 <= j < i && candidates[j] ==> !Less(costs[j], PosInf)
    case Chosen(index, _) =>
      && index < i
      && candidates[index]
      && min == costs[index]
      && Less(min, PosInf)
      && (forall j :: 0 <= j < i && candidates[j] ==> !Less(costs[j], min))
      && (forall j :: (0 <= j < index && candidates[j] && !costs[j].NaN?) ==> Less(min, costs[j]))
  }

  /**
   * One step of the scan keeps the selection the best so far: a candidate
   * strictly below the current minimum replaces the choice, anything else
   * leaves it.
   */
  lemma {:induction false} BestSoFarStep(costs: seq<XReal>, candidates: seq<bool>, i: nat, choice: Choice, min: XReal,
                                         newlyCovered: set<nat>)
    requires i < |costs| == |candidates|
    requires BestSoFar(costs, candidates, i, choice, min)
    ensures candidates[i] && Less(costs[i], min) ==>
      BestSoFar(costs, candidates, i + 1, Chosen(i, newlyCovered), costs[i])
    ensures !(candidates[i] && Less(costs[i], min)) ==> BestSoFar(costs, candidates, i + 1, choice, min)
  {
    if candidates[i] && Less(costs[i], min) {
      forall j | 0 <= j < i
        ensures !Less(costs[j], min) ==> !Less(costs[j], costs[i])
        ensures !Less(costs[j], min) && !costs[j].NaN? ==> Less(costs[i], costs[j])
      {
        LessIsStrictTotalOrder(costs[j], costs[i], min);
        LessIsStrictTotalOrder(costs[i], min, costs[j]);
      }
      LessIsStrictTotalOrder(costs[i], min, PosInf);
    }
  }

  /** Every candidate has an entry for its current multiplicity: no lookup of the round misses. */
  ghost predicate AllHaveEntries(order: seq<Sequence>, table: Table, covered: set<nat>, covering: multiset<Sequence>,
                                 getCovered: CoverFunction)
    requires forall g :: g in order ==> g in table
  {
    forall i {:trigger IsCandidate(order, covered, getCovered, i)} :: 0 <= i < |order| && IsCandidate(order, covered, getCovered, i) ==>
      HasEntry(table, covering, order[i])
  }

  /**
   * The i-th generator is the missing entry a round reports: the first
   * candidate of the order with no entry for its current multiplicity, which
   * is `multiplicity`.
   */
  ghost predicate IsFirstMissing(order: seq<Sequence>, table: Table, covered: set<nat>, covering: multiset<Sequence>,
                                 getCovered: CoverFunction, index: nat, multiplicity: nat)
    requires forall g :: g in order ==> g in table
  {
    && index < |order|
    && IsCandidate(order, covered, getCovered, index)
    && multiplicity == covering[order[index]]
    && !HasEntry(table, covering, order[index])
    && forall i {:trigger IsCandidate(order, covered, getCovered, i)} :: 0 <= i < index && IsCandidate(order, covered, getCovered, i) ==>
         HasEntry(table, covering, order[i])
  }

  /** Generator `g` is the missing entry a round reports, at multiplicity `multiplicity`. */
  ghost predicate ReportsFirstMissing(order: seq<Sequence>, table: Table, covered: set<nat>, covering: multiset<Sequence>,
                                      getCovered: CoverFunction, g: Sequence, multiplicity: nat)
    requires forall g :: g in order ==> g in table
  {
    exists j: nat :: j < |order| && order[j] == g && IsFirstMissing(order, table, covered, covering, getCovered, j, multiplicity)
  }

  /**
   * The i-th generator is the selection of a round, as `SelectBest` promises
   * it: every candidate has an entry, and the i-th is a candidate whose cost
   * per item is below +inf, with no candidate strictly cheaper, and strictly
   * cheaper than every earlier candidate whose cost is not NaN (so the first
   * of equally cheap candidates wins).
   */
  ghost predicate IsBest(order: seq<Sequence>, table: Table, covered: set<nat>, covering: multiset<Sequence>,
                         lenCovering: nat, getCovered: CoverFunction, index: nat)
    requires forall g :: g in order ==> g in table
  {
    && AllHaveEntries(order, table, covered, covering, getCovered)
    && index < |order|
    && IsCandidate(order, covered, getCovered, index)
    && Less(PerItemCost(table, covering, lenCovering, order[index]), PosInf)
    // minimal: no candidate is strictly cheaper
    && (forall i {:trigger IsCandidate(order, covered, getCovered, i)} :: 0 <= i < |order| && IsCandidate(order, covered, getCovered, i) ==>
          !Less(PerItemCost(table, covering, lenCovering, order[i]), PerItemCost(table, covering, lenCovering, order[index])))
    // first: strictly cheaper than every earlier comparable candidate
    && (forall i {:trigger IsCandidate(order, covered, getCovered, i)} :: (0 <= i < index && IsCandidate(order, covered, getCovered, i) &&
                     !PerItemCost(table, covering, lenCovering, order[i]).NaN?) ==>
          Less(PerItemCost(table, covering, lenCovering, order[index]), PerItemCost(table, covering, lenCovering, order[i])))
  }

  /**
   * Every candidate has an entry, and no candidate's cost per item is below
   * +inf: the round selects nothing (`SelectBest`'s `NoChoice`).
   */
  ghost predicate NoneBelowInf(order: seq<Sequence>, table: Table, covered: set<nat>, covering: multiset<Sequence>,
                               lenCovering: nat, getCovered: CoverFunction)
    requires forall g :: g in order ==> g in table
  {
    && AllHaveEntries(order, table, covered, covering, getCovered)
    && forall i {:trigger IsCandidate(order, covered, getCovered, i)} :: 0 <= i < |order| && IsCandidate(order, covered, getCovered, i) ==>
      !Less(PerItemCost(table, covering, lenCovering, order[i]), PosInf)
  }

  /**
   * One pass over the table: among the generators that newly cover something,
   * the first one (in iteration order) whose cost per item is strictly below
   * +inf and below every earlier candidate's.
   */
  method SelectBest(order: seq<Sequence>, table: Table, covered: set<nat>, covering: multiset<Sequence>,
                    lenCovering: nat, getCovered: CoverFunction) returns (choice: Choice)
    requires WellFormedTable(table)
    requires forall g :: g in order ==> g in table
    ensures choice.Missing? ==>
      && choice.index < |order|
      && IsCandidate(order, covered, getCovered, choice.index)
      && choice.multiplicity == covering[order[choice.index]]
      && !HasEntry(table, covering, order[choice.index])
      && forall i {:trigger IsCandidate(order, covered, getCovered, i)} :: 0 <= i < choice.index && IsCandidate(order, covered, getCovered, i) ==> HasEntry(table, covering, order[i])
    ensures !choice.Missing? ==>
      forall i {:trigger IsCandidate(order, covered, getCovered, i)} :: 0 <= i < |order| && IsCandidate(order, covered, getCovered, i) ==> HasEntry(table, covering, order[i])
    ensures choice.NoChoice? ==>
      forall i {:trigger IsCandidate(order, covered, getCovered, i)} :: 0 <= i < |order| && IsCandidate(order, covered, getCovered, i) ==>
        !Less(PerItemCost(table, covering, lenCovering, order[i]), PosInf)
    ensures choice.Chosen? ==>
      && choice.index < |order|
      && choice.newlyCovered == getCovered(order[choice.index], covered)
      && choice.newlyCovered != {}
      && Less(PerItemCost(table, covering, lenCovering, order[choice.index]), PosInf)
      // minimal: no candidate is strictly cheaper
      && (forall i {:trigger IsCandidate(order, covered, getCovered, i)} :: 0 <= i < |order| && IsCandidate(order, covered, getCovered, i) ==>
            !Less(PerItemCost(table, covering, lenCovering, order[i]), PerItemCost(table, covering, lenCovering, order[choice.index])))
      // first: strictly cheaper than every earlier comparable candidate
      && (forall i {:trigger IsCandidate(order, covered, getCovered, i)} :: (0 <= i < choice.index && IsCandidate(order, covered, getCovered, i) &&
                       !PerItemCost(table, covering, lenCovering, order[i]).NaN?) ==>
            Less(PerItemCost(table, covering, lenCovering, order[choice.index]), PerItemCost(table, covering, lenCovering, order[i])))
  {
    ghost var costs := CostsOf(order, table, covering, lenCovering);
    ghost var candidates := CandidatesOf(order, covered, getCovered);
    var minCostPerItem := PosInf;
    choice := NoChoice;
    var i := 0;
    while i < |order|
      invariant 0 <= i <= |order|
      invariant BestSoFar(costs, candidates, i, choice, minCostPerItem)
      invariant forall j :: 0 <= j < i && candidates[j] ==> HasEntry(table, covering, order[j])
      invariant choice.Chosen? ==>
        choice.newlyCovered == getCovered(order[choice.index], covered) && choice.newlyCovered != {}
    {
      var g := order[i];
      var seqCoveredItems := getCovered(g, covered);
      assert candidates[i] == IsCandidate(order, covered, getCovered, i);
      BestSoFarStep(costs, candidates, i, choice, minCostPerItem, seqCoveredItems);
      if seqCoveredItems != {} {
        var occur := covering[g];
        var row := table[g];
        if occur !in row {
          assert forall j :: 0 <= j < i && IsCandidate(order, covered, getCovered, j) ==> HasEntry(table, covering, order[j]);
          return Missing(i, occur);
        }
        var costPerItem := MarginalCostPerItem(row, occur, lenCovering, |g|);
        assert costs[i] == PerItemCost(table, covering, lenCovering, order[i]);
        if Less(costPerItem, minCostPerItem) {
          minCostPerItem := costPerItem;
          choice := Chosen(i, seqCoveredItems);
        }
      }
      i := i + 1;
    }
  }

  // ---------------------------------------------------------------------------
  // The decoder
  // ---------------------------------------------------------------------------

  /** The positions claimed by a list of generator instances. */
  function Claimed(claims: seq<Claim>): set<nat>
  {
    if claims == [] then {} else Claimed(claims[..|claims| - 1]) + claims[|claims| - 1].positions
  }

  /** The multiset of generators of a list of generator instances. */
  function Generators(claims: seq<Claim>): (m: multiset<Sequence>)
    ensures |m| == |claims|
  {
    if claims == [] then multiset{} else Generators(claims[..|claims| - 1]) + multiset{claims[|claims| - 1].generator}
  }

  /** The total size of the generators of a list of instances: `lenCovering` in the greedy loop. */
  function ClaimedLength(claims: seq<Claim>): nat
  {
    if claims == [] then 0 else ClaimedLength(claims[..|claims| - 1]) + |claims[|claims| - 1].generator|
  }

  /** The instances claim non-empty, pairwise disjoint sets of positions. */
  ghost predicate Disjoint(claims: seq<Claim>)
  {
    && (forall i :: 0 <= i < |claims| ==> claims[i].positions != {})
    && (forall i, j :: 0 <= i < j < |claims| ==> claims[i].positions !! claims[j].positions)
  }

  /** The instances claim disjoint sets of positions of a transaction of size `n`, `covered` in all. */
  ghost predicate Explains(claims: seq<Claim>, covered: set<nat>, n: nat)
  {
    && Disjoint(claims)
    && covered == Claimed(claims)
    && covered <= Range(n)
  }

  /** The instances claim disjoint, non-empty sets of positions whose union is every position. */
  ghost predicate Partitions(claims: seq<Claim>, n: nat)
  {
    Disjoint(claims) && Claimed(claims) == Range(n)
  }

  /** A fallback instance: the one-item generator of position `p`, claiming `p`. */
  ghost predicate IsOneItemClaim(items: seq<Item>, c: Claim)
  {
    exists p: nat :: p < |items| && c.positions == {p} && c.generator == [items[p]]
  }

  /** The one-item instances of every position, in increasing position order. */
  function OneItemClaims(items: seq<Item>): (claims: seq<Claim>)
    ensures |claims| == |items|
    ensures forall i :: 0 <= i < |items| ==> claims[i] == Claim([items[i]], {i})
  {
    seq(|items|, i requires 0 <= i < |items| => Claim([items[i]], {i}))
  }

  /** The multiset of one-item generators of a transaction, one per position. */
  function OneItemSequences(items: seq<Item>): multiset<Sequence>
  {
    if items == [] then multiset{} else OneItemSequences(items[..|items| - 1]) + multiset{[items[|items| - 1]]}
  }

  lemma {:induction false} OneItemClaimsGenerators(items: seq<Item>)
    ensures Generators(OneItemClaims(items)) == OneItemSequences(items)
  {
    if items != [] {
      var prefix := items[..|items| - 1];
      OneItemClaimsGenerators(prefix);
      assert OneItemClaims(items)[..|items| - 1] == OneItemClaims(prefix);
    }
  }

  /** `BitSet.nextClearBit`: the first position from `from` on that is not set. */
  method NextClearBit(bits: set<nat>, from: nat, ghost n: nat) returns (index: nat)
    requires exists p: nat :: from <= p < n && p !in bits
    ensures from <= index < n && index !in bits
    ensures forall p: nat :: from <= p < index ==> p in bits
  {
    ghost var clear: nat :| from <= clear < n && clear !in bits;
    index := from;
    while index in bits
      invariant from <= index <= clear
      invariant forall p: nat :: from <= p < index ==> p in bits
      decreases clear - index
    {
      index := index + 1;
    }
  }

  /**
   * The state of the fallback loop: the instances `all` extend the greedy ones
   * (`claims`) with one-item instances, still explain the positions `covered`,
   * and every position below `index` is covered.
   */
  ghost predicate Filling(items: seq<Item>, claims: seq<Claim>, all: seq<Claim>, covered: set<nat>, index: nat,
                          filled: multiset<Sequence>)
  {
    && Explains(all, covered, |items|)
    && filled == Generators(all)
    && |claims| <= |all| && all[..|claims|] == claims
    && (forall i :: |claims| <= i < |all| ==> IsOneItemClaim(items, all[i]))
    && (forall p: nat :: p < index ==> p in covered)
  }

  /** When the greedy phase claimed nothing, the fallback has claimed the first positions, in order. */
  ghost predicate FillingFromStart(items: seq<Item>, all: seq<Claim>, covered: set<nat>, index: nat)
  {
    covered == Range(|all|) && index <= |all| && |all| <= |items| && all == OneItemClaims(items)[..|all|]
  }

  /** While some position is uncovered, one at or after `index` is. */
  lemma FillingHasClear(items: seq<Item>, claims: seq<Claim>, all: seq<Claim>, covered: set<nat>, index: nat,
                        filled: multiset<Sequence>)
    requires Filling(items, claims, all, covered, index, filled)
    requires |covered| != |items|
    ensures exists p: nat :: index <= p < |items| && p !in covered
  {
    PositionsSize(covered, |items|);
    assert covered < Range(|items|);
    var p :| p in Range(|items|) && p !in covered;
  }

  /** Claiming the first clear position from `from` on, `index`, with its one-item generator. */
  lemma FillingStep(items: seq<Item>, claims: seq<Claim>, all: seq<Claim>, covered: set<nat>, from: nat,
                    filled: multiset<Sequence>, index: nat)
    requires Filling(items, claims, all, covered, from, filled)
    requires from <= index < |items| && index !in covered
    requires forall p: nat :: from <= p < index ==> p in covered
    ensures Filling(items, claims, all + [Claim([items[index]], {index})], covered + {index}, index,
                    filled + multiset{[items[index]]})
    ensures |covered| < |covered + {index}| <= |items|
  {
    var c := Claim([items[index]], {index});
    assert IsOneItemClaim(items, c);
    ClaimsStep(all, c, covered, |items|);
    assert (all + [c])[..|claims|] == claims;
    PositionsSize(covered + {index}, |items|);
  }

  /**
   * From the start, the first clear position is the next one in order, so the
   * fallback keeps claiming positions 0, 1, 2, ... in turn.
   */
  lemma FillingFromStartStep(items: seq<Item>, all: seq<Claim>, covered: set<nat>, from: nat, index: nat)
    requires FillingFromStart(items, all, covered, from)
    requires from <= index < |items| && index !in covered
    requires forall p: nat :: from <= p < index ==> p in covered
    ensures FillingFromStart(items, all + [Claim([items[index]], {index})], covered + {index}, index)
  {
    assert |all| !in covered;
    assert index == |all|;
    var ones := OneItemClaims(items);
    assert ones[..|all| + 1] == ones[..|all|] + [Claim([items[index]], {index})];
    assert covered + {index} == Range(|all| + 1);
  }

  /** Once every position is covered, the instances partition the transaction. */
  lemma FillingDone(items: seq<Item>, claims: seq<Claim>, all: seq<Claim>, covered: set<nat>, index: nat,
                    filled: multiset<Sequence>)
    requires Filling(items, claims, all, covered, index, filled)
    requires |covered| == |items|
    requires claims == [] ==> FillingFromStart(items, all, covered, index)
    ensures Partitions(all, |items|)
    ensures claims == [] ==> all == OneItemClaims(items)
  {
    PositionsSize(covered, |items|);
    if claims == [] {
      assert OneItemClaims(items)[..|all|] == OneItemClaims(items);
    }
  }

  /**
   * The fallback: claim every position left uncovered with its one-item
   * generator, in increasing position order.
   */
  method FillWithOneItemSequences(items: seq<Item>, covering: multiset<Sequence>, covered: set<nat>, ghost claims: seq<Claim>)
    returns (filled: multiset<Sequence>, ghost all: seq<Claim>)
    requires Explains(claims, covered, |items|)
    requires covering == Generators(claims)
    ensures Partitions(all, |items|) && filled == Generators(all)
    ensures |claims| <= |all| && all[..|claims|] == claims
    ensures forall i :: |claims| <= i < |all| ==> IsOneItemClaim(items, all[i])
    ensures claims == [] ==> all == OneItemClaims(items)
  {
    var transactionSize := |items|;
    var coveredItems := covered;
    filled := covering;
    all := claims;
    var index: nat := 0;
    while |coveredItems| != transactionSize
      invariant Filling(items, claims, all, coveredItems, index, filled)
      invariant claims == [] ==> FillingFromStart(items, all, coveredItems, index)
      decreases transactionSize - |coveredItems|
    {
      FillingHasClear(items, claims, all, coveredItems, index, filled);
      ghost var from := index;
      index := NextClearBit(coveredItems, index, transactionSize);
      FillingStep(items, claims, all, coveredItems, from, filled, index);
      if claims == [] {
        FillingFromStartStep(items, all, coveredItems, from, index);
      }
      var one := [items[index]];
      filled := filled + multiset{one};
      all := all + [Claim(one, {index})];
      coveredItems := coveredItems + {index};
    }
    FillingDone(items, claims, all, coveredItems, index, filled);
  }

  /**
   * The state of the greedy loop: the instances explain the positions
   * `covered`, `covering` is the multiset of their generators, all taken from
   * the table, `lenCovering` is the total size of those generators, and each
   * instance claims at least one position.
   */
  ghost predicate GreedyState(table: Table, n: nat, claims: seq<Claim>, covered: set<nat>, covering: multiset<Sequence>,
                              lenCovering: nat)
  {
    && Explains(claims, covered, n)
    && covering == Generators(claims)
    && lenCovering == ClaimedLength(claims)
    && (forall g :: covering[g] <= |claims|)
    && |claims| <= |covered|
    && (forall c :: c in claims ==> c.generator in table)
  }

  /**
   * Instance `c` is what a greedy round selects after the instances `before`:
   * the `index`-th generator, best at the state those instances leave
   * (positions claimed, multiset of generators, total size), with the
   * positions it newly covers there.
   */
  ghost predicate GreedyRound(order: seq<Sequence>, table: Table, getCovered: CoverFunction, before: seq<Claim>,
                              index: nat, c: Claim)
    requires forall g :: g in order ==> g in table
  {
    && IsBest(order, table, Claimed(before), Generators(before), ClaimedLength(before), getCovered, index)
    && c == Claim(order[index], getCovered(order[index], Claimed(before)))
  }

  /**
   * Every instance of `claims` is the selection of its round, the generator
   * `picks[r]` in round `r`, at the state the instances before it leave.
   */
  ghost predicate GreedyRounds(order: seq<Sequence>, table: Table, getCovered: CoverFunction, claims: seq<Claim>,
                               picks: seq<nat>)
    requires forall g :: g in order ==> g in table
  {
    && |picks| == |claims|
    && forall r :: 0 <= r < |claims| ==> GreedyRound(order, table, getCovered, claims[..r], picks[r], claims[r])
  }

  /** A selected round extends the history of rounds. */
  lemma GreedyRoundsStep(order: seq<Sequence>, table: Table, getCovered: CoverFunction, claims: seq<Claim>,
                         picks: seq<nat>, index: nat, c: Claim)
    requires forall g :: g in order ==> g in table
    requires GreedyRounds(order, table, getCovered, claims, picks)
    requires GreedyRound(order, table, getCovered, claims, index, c)
    ensures GreedyRounds(order, table, getCovered, claims + [c], picks + [index])
  {
    var all := claims + [c];
    forall r | 0 <= r < |all|
      ensures GreedyRound(order, table, getCovered, all[..r], (picks + [index])[r], all[r])
    {
      if r < |claims| {
        assert all[..r] == claims[..r];
        assert GreedyRound(order, table, getCovered, claims[..r], picks[r], claims[r]);
      } else {
        assert all[..r] == claims;
      }
    }
  }

  /**
   * Adding the selection of a round, the `index`-th generator with the
   * positions it newly covers: the state stays that of the instances, now one
   * longer, the history gains that round, and the covered set strictly grows.
   */
  lemma GreedyStep(order: seq<Sequence>, table: Table, getCovered: CoverFunction, n: nat, claims: seq<Claim>,
                   picks: seq<nat>, covered: set<nat>, covering: multiset<Sequence>, lenCovering: nat, index: nat,
                   newlyCovered: set<nat>)
    requires forall g :: g in order ==> g in table
    requires CoversWithin(getCovered, n)
    requires GreedyState(table, n, claims, covered, covering, lenCovering)
    requires GreedyRounds(order, table, getCovered, claims, picks)
    requires IsBest(order, table, covered, covering, lenCovering, getCovered, index)
    requires newlyCovered == getCovered(order[index], covered)
    ensures GreedyState(table, n, claims + [Claim(order[index], newlyCovered)], covered + newlyCovered,
                        covering + multiset{order[index]}, lenCovering + |order[index]|)
    ensures GreedyRounds(order, table, getCovered, claims + [Claim(order[index], newlyCovered)], picks + [index])
    ensures |covered| < |covered + newlyCovered| <= n
  {
    var c := Claim(order[index], newlyCovered);
    ClaimsStep(claims, c, covered, n);
    PositionsSize(covered + newlyCovered, n);
    GreedyRoundsStep(order, table, getCovered, claims, picks, index, c);
  }

  /**
   * One round of the decoder: select the best candidate and, when there is
   * one, add it to the covering.
   */
  method AddBest(order: seq<Sequence>, table: Table, getCovered: CoverFunction, ghost n: nat,
                 covering: multiset<Sequence>, lenCovering: nat, coveredItems: set<nat>,
                 ghost claims: seq<Claim>, ghost picks: seq<nat>)
    returns (choice: Choice, covering': multiset<Sequence>, lenCovering': nat, coveredItems': set<nat>,
             ghost claims': seq<Claim>, ghost picks': seq<nat>)
    requires WellFormedTable(table)
    requires forall g :: g in order ==> g in table
    requires CoversWithin(getCovered, n)
    requires GreedyState(table, n, claims, coveredItems, covering, lenCovering)
    requires GreedyRounds(order, table, getCovered, claims, picks)
    ensures choice.Missing? ==>
      && IsFirstMissing(order, table, coveredItems, covering, getCovered, choice.index, choice.multiplicity)
      && |table[order[choice.index]]| <= |claims|
    ensures choice.NoChoice? ==> NoneBelowInf(order, table, coveredItems, covering, lenCovering, getCovered)
    ensures choice.Chosen? ==>
      && GreedyState(table, n, claims', coveredItems', covering', lenCovering')
      && GreedyRounds(order, table, getCovered, claims', picks')
      && |coveredItems| < |coveredItems'|
      && (table == map[] ==> claims' == [])
  {
    choice := SelectBest(order, table, coveredItems, covering, lenCovering, getCovered);
    covering', lenCovering', coveredItems', claims', picks' := covering, lenCovering, coveredItems, claims, picks;
    match choice {
      case Missing(j, k) =>
        MissingRowIsShort(table, order[j], k);
      case Chosen(j, newlyCovered) =>
        var bestSeq := order[j];
        GreedyStep(order, table, getCovered, n, claims, picks, coveredItems, covering, lenCovering, j, newlyCovered);
        covering' := covering + multiset{bestSeq};
        lenCovering' := lenCovering + |bestSeq|;
        claims' := claims + [Claim(bestSeq, newlyCovered)];
        picks' := picks + [j];
        coveredItems' := coveredItems + newlyCovered;
      case NoChoice =>
    }
  }

  /**
   * The greedy rounds of the decoder: select and add the best candidate until
   * every position is covered, no candidate is below +inf, or an entry is
   * missing. Returns the state the rounds leave.
   */
  method GreedyLoop(items: seq<Item>, table: Table, order: seq<Sequence>, getCovered: CoverFunction)
    returns (halt: Halt, covering: multiset<Sequence>, lenCovering: nat, coveredItems: set<nat>,
             ghost claims: seq<Claim>, ghost picks: seq<nat>)
    requires WellFormedTable(table)
    requires Enumerates(order, table)
    requires CoversWithin(getCovered, |items|)
    ensures Explains(claims, coveredItems, |items|) && covering == Generators(claims)
    ensures lenCovering == ClaimedLength(claims)
    ensures forall c :: c in claims ==> c.generator in table
    ensures GreedyRounds(order, table, getCovered, claims, picks)
    ensures halt.AllCovered? ==> Partitions(claims, |items|)
    ensures halt.Stuck? ==>
      && |coveredItems| < |items|
      && NoneBelowInf(order, table, Claimed(claims), Generators(claims), ClaimedLength(claims), getCovered)
    ensures halt.Missed? ==>
      && IsFirstMissing(order, table, coveredItems, covering, getCovered, halt.index, halt.multiplicity)
      && |table[order[halt.index]]| < |items|
    ensures table == map[] ==> claims == []
  {
    covering, lenCovering, coveredItems := multiset{}, 0, {};
    var transactionSize := |items|;
    claims, picks := [], [];
    while |coveredItems| != transactionSize
      invariant GreedyState(table, transactionSize, claims, coveredItems, covering, lenCovering)
      invariant GreedyRounds(order, table, getCovered, claims, picks)
      invariant table == map[] ==> claims == []
      decreases transactionSize - |coveredItems|
    {
      PositionsSize(coveredItems, transactionSize);
      var choice, covering', lenCovering', coveredItems', claims', picks' :=
        AddBest(order, table, getCovered, transactionSize, covering, lenCovering, coveredItems, claims, picks);
      match choice {
        case Missing(j, k) =>
          return Missed(j, k), covering, lenCovering, coveredItems, claims, picks;
        case NoChoice =>
          return Stuck, covering, lenCovering, coveredItems, claims, picks;
        case Chosen(_, _) =>
          PositionsSize(coveredItems', transactionSize);
          covering, lenCovering, coveredItems, claims, picks := covering', lenCovering', coveredItems', claims', picks';
      }
    }
    PositionsSize(coveredItems, transactionSize);
    halt := AllCovered;
  }

  /**
   * Infer a covering of the transaction `items` from the multiplicity
   * `table`, greedily. `claims` records, in selection order, each generator
   * instance added and the positions it claimed; `rounds` is its prefix chosen
   * by the greedy rounds and `picks` the indices of their generators.
   */
  method InferGreedy(items: seq<Item>, table: Table, order: seq<Sequence>, getCovered: CoverFunction)
    returns (result: Inference, ghost claims: seq<Claim>, ghost rounds: seq<Claim>, ghost picks: seq<nat>)
    requires WellFormedTable(table)
    requires Enumerates(order, table)
    requires CoversWithin(getCovered, |items|)
    // a covering explains every position exactly once, one instance per element of the multiset
    ensures result.Covering? ==> Partitions(claims, |items|) && result.covering == Generators(claims)
    ensures result.Covering? ==>
      forall c :: c in claims ==> c.generator in table || IsOneItemClaim(items, c)
    // each greedy round adds the cheapest candidate per item at the state the
    // earlier rounds leave, the first of equally cheap ones
    ensures rounds <= claims
    ensures GreedyRounds(order, table, getCovered, rounds, picks)
    // the other instances are one-item instances, added only once no candidate costs less than +inf
    ensures |rounds| < |claims| ==>
      && result.Covering?
      && NoneBelowInf(order, table, Claimed(rounds), Generators(rounds), ClaimedLength(rounds), getCovered)
      && forall i :: |rounds| <= i < |claims| ==> IsOneItemClaim(items, claims[i])
    // a missing entry is reported only where the lookup of a round misses: at
    // the first candidate without an entry, at the state the rounds leave
    ensures result.MissingEntry? ==>
      && result.generator in table && result.multiplicity !in table[result.generator]
      && claims == rounds
      && ReportsFirstMissing(order, table, Claimed(rounds), Generators(rounds), getCovered, result.generator,
                             result.multiplicity)
    // the lookup never misses when every row holds at least one entry per position
    ensures (forall g :: g in table ==> |table[g]| >= |items|) ==> result.Covering?
    // an empty cache gives the one-item generators of every position, in increasing order
    ensures table == map[] ==>
      result.Covering? && claims == OneItemClaims(items) && result.covering == OneItemSequences(items)
  {
    var halt, covering, lenCovering, coveredItems;
    halt, covering, lenCovering, coveredItems, rounds, picks := GreedyLoop(items, table, order, getCovered);
    claims := rounds;
    if halt.Missed? {
      result := MissingEntry(order[halt.index], halt.multiplicity);
    } else {
      if halt.Stuck? {
        covering, claims := FillWithOneItemSequences(items, covering, coveredItems, rounds);
        FilledFromTable(items, table, rounds, claims, covering);
      } else if table == map[] {
        assert items == [];
        OneItemClaimsGenerators(items);
      }
      result := Covering(covering);
    }
  }


  /** In a dense row a multiplicity is missing only when the row is no longer than it. */
  lemma MissingRowIsShort(table: Table, g: Sequence, k: nat)
    requires WellFormedTable(table) && g in table && k !in table[g]
    ensures |table[g]| <= k
  {
  }

  /**
   * Greedy instances from the table followed by one-item instances: each is
   * one or the other, and with no greedy instance they are the one-item
   * instances of every position.
   */
  lemma FilledFromTable(items: seq<Item>, table: Table, greedy: seq<Claim>, all: seq<Claim>, filled: multiset<Sequence>)
    requires forall c :: c in greedy ==> c.generator in table
    requires |greedy| <= |all| && all[..|greedy|] == greedy
    requires forall i :: |greedy| <= i < |all| ==> IsOneItemClaim(items, all[i])
    requires filled == Generators(all)
    requires greedy == [] ==> all == OneItemClaims(items)
    ensures forall c :: c in all ==> c.generator in table || IsOneItemClaim(items, c)
    ensures greedy == [] ==> filled == OneItemSequences(items)
  {
    forall c | c in all ensures c.generator in table || IsOneItemClaim(items, c) {
      var i :| 0 <= i < |all| && all[i] == c;
      if i < |greedy| {
        assert c == greedy[i];
      }
    }
    if greedy == [] {
      OneItemClaimsGenerators(items);
    }
  }

  /**
   * Appending an instance whose positions are new, non-empty and within the
   * transaction keeps the instances disjoint, grows what they claim by those
   * positions and adds its generator to the multiset.
   */
  lemma ClaimsStep(claims: seq<Claim>, c: Claim, covered: set<nat>, n: nat)
    requires Explains(claims, covered, n)
    requires c.positions != {} && c.positions !! covered && c.positions <= Range(n)
    ensures Explains(claims + [c], covered + c.positions, n)
    ensures Generators(claims + [c]) == Generators(claims) + multiset{c.generator}
    ensures ClaimedLength(claims + [c]) == ClaimedLength(claims) + |c.generator|
    ensures |covered + c.positions| > |covered|
  {
    assert (claims + [c])[..|claims|] == claims;
    DisjointSnoc(claims, c);
    DisjointUnionSize(covered, c.positions);
  }

  lemma DisjointSnoc(claims: seq<Claim>, c: Claim)
    requires Disjoint(claims)
    requires c.positions != {} && c.positions !! Claimed(claims)
    ensures Disjoint(claims + [c])
  {
    var all := claims + [c];
    forall i, j | 0 <= i < j < |all| ensures all[i].positions !! all[j].positions {
      assert all[i] == claims[i];
      if j == |claims| {
        ClaimedContains(claims, i);
      } else {
        assert all[j] == claims[j];
      }
    }
  }

  lemma {:induction false} ClaimedContains(claims: seq<Claim>, i: nat)
    requires i < |claims|
    ensures claims[i].positions <= Claimed(claims)
  {
    if i < |claims| - 1 {
      ClaimedContains(claims[..|claims| - 1], i);
    }
  }
}
