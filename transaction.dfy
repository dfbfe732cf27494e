/**
 * A transaction with its per-transaction cache: the generators it supports,
 * each with a probability, its stored covering and the temporary covering of a
 * structural trial, and the encoding cost of a covering.
 */
module TransactionCache {
  import opened Sequences
  import opened LogMath

  /** Generator -> probability, as cached by one transaction. */
  type Cache = map<Sequence, real>

  /** Every generator of the cache is contained in the transaction's items. */
  ghost predicate Supports(items: seq<Item>, cache: Cache)
  {
    forall g :: g in cache ==> Contains(items, g)
  }

  function Elems(order: seq<Sequence>): set<Sequence>
  {
    set k | k in order
  }

  // ---------------------------------------------------------------------------
  // Seeding and refreshing the cache
  // ---------------------------------------------------------------------------

  /** The cache seeded from singleton counts: each contained singleton with probability count / n. */
  function Seeded(items: seq<Item>, singletons: multiset<Sequence>, noTransactions: nat): Cache
    requires noTransactions > 0
  {
    map s | s in singletons && Contains(items, s) :: singletons[s] as real / noTransactions as real
  }

  /**
   * The cache refreshed from a new probability map: a key of the new map takes
   * its value, an absent one-item key drops to 0 and an absent longer key is
   * removed.
   */
  function Refreshed(cache: Cache, newSequences: Cache): Cache
  {
    map k | k in cache && (k in newSequences || |k| == 1) :: if k in newSequences then newSequences[k] else 0.0
  }

  /** Refreshing never adds a generator and keeps every one-item generator. */
  lemma RefreshedKeys(cache: Cache, newSequences: Cache)
    ensures Refreshed(cache, newSequences).Keys <= cache.Keys
    ensures forall k :: k in cache && |k| == 1 ==> k in Refreshed(cache, newSequences)
  {
  }

  /** Refreshing twice with the same map is refreshing once. */
  lemma RefreshedIdempotent(cache: Cache, newSequences: Cache)
    ensures Refreshed(Refreshed(cache, newSequences), newSequences) == Refreshed(cache, newSequences)
  {
  }

  /** The refreshed cache depends on the old cache only through its keys: every old value is overwritten. */
  lemma RefreshedForgetsValues(cache1: Cache, cache2: Cache, newSequences: Cache)
    requires cache1.Keys == cache2.Keys
    ensures Refreshed(cache1, newSequences) == Refreshed(cache2, newSequences)
  {
  }

  // ---------------------------------------------------------------------------
  // Encoding cost of a covering
  // ---------------------------------------------------------------------------

  /** A cached generator takes the "used" term when the covering contains it and its cached value is not 0. */
  predicate IsUsed(cache: Cache, covering: multiset<Sequence>, k: Sequence)
    requires k in cache
  {
    k in covering && cache[k] != 0.0
  }

  /**
   * The order-free part of one generator's cost: -log p - sumLogRange(1, size)
   * when used, -log(1 - p) otherwise, `p` taken from the supplied map.
   */
  function Term(cache: Cache, probs: Cache, covering: multiset<Sequence>, k: Sequence): real
    requires k in cache && k in probs
  {
    if IsUsed(cache, covering, k) then -Log(probs[k]) - SumLogRange(1, |k|)
    else -Log(1.0 - probs[k])
  }

  ghost function TermSum(ks: set<Sequence>, cache: Cache, probs: Cache, covering: multiset<Sequence>): real
    requires ks <= cache.Keys && ks <= probs.Keys
    decreases ks
  {
    if ks == {} then 0.0
    else var k :| k in ks; Term(cache, probs, covering, k) + TermSum(ks - {k}, cache, probs, covering)
  }

  /** Total size of the used generators among `ks`. */
  ghost function UsedLength(ks: set<Sequence>, cache: Cache, covering: multiset<Sequence>): nat
    requires ks <= cache.Keys
    decreases ks
  {
    if ks == {} then 0
    else var k :| k in ks; (if IsUsed(cache, covering, k) then |k| else 0) + UsedLength(ks - {k}, cache, covering)
  }

  /**
   * The cost of a covering, stated without an iteration order: over the cached
   * generators the supplied map prices, the sum of their terms plus
   * sumLogRange(1, L), where L is the total size of the used ones.
   */
  ghost function CoveringCost(cache: Cache, probs: Cache, covering: multiset<Sequence>): real
  {
    var ks := cache.Keys * probs.Keys;
    TermSum(ks, cache, probs, covering) + SumLogRange(1, UsedLength(ks, cache, covering))
  }

  lemma {:induction false} TermSumRemove(ks: set<Sequence>, cache: Cache, probs: Cache, covering: multiset<Sequence>, x: Sequence)
    requires ks <= cache.Keys && ks <= probs.Keys && x in ks
    ensures TermSum(ks, cache, probs, covering) == Term(cache, probs, covering, x) + TermSum(ks - {x}, cache, probs, covering)
    decreases ks
  {
    var y :| y in ks && TermSum(ks, cache, probs, covering) == Term(cache, probs, covering, y) + TermSum(ks - {y}, cache, probs, covering);
    if y != x {
      TermSumRemove(ks - {y}, cache, probs, covering, x);
      TermSumRemove(ks - {x}, cache, probs, covering, y);
      assert ks - {y} - {x} == ks - {x} - {y};
    }
  }

  lemma {:induction false} UsedLengthRemove(ks: set<Sequence>, cache: Cache, covering: multiset<Sequence>, x: Sequence)
    requires ks <= cache.Keys && x in ks
    ensures UsedLength(ks, cache, covering) == (if IsUsed(cache, covering, x) then |x| else 0) + UsedLength(ks - {x}, cache, covering)
    decreases ks
  {
    var y :| y in ks && UsedLength(ks, cache, covering) == (if IsUsed(cache, covering, y) then |y| else 0) + UsedLength(ks - {y}, cache, covering);
    if y != x {
      UsedLengthRemove(ks - {y}, cache, covering, x);
      UsedLengthRemove(ks - {x}, cache, covering, y);
      assert ks - {y} - {x} == ks - {x} - {y};
    }
  }

  /** The size a generator adds to the running length: its own when used, otherwise nothing. */
  function UsedSize(cache: Cache, covering: multiset<Sequence>, k: Sequence): nat
    requires k in cache
  {
    if IsUsed(cache, covering, k) then |k| else 0
  }

  /**
   * What the loop adds for one generator when the running length is `l`: a
   * used generator adds -log p + sumLogRange(l+1, l+size) - sumLogRange(1,
   * size), any other adds -log(1 - p).
   */
  function RunningTerm(cache: Cache, probs: Cache, covering: multiset<Sequence>, k: Sequence, l: nat): real
    requires k in cache && k in probs
  {
    if IsUsed(cache, covering, k) then -Log(probs[k]) + SumLogRange(l + 1, l + |k|) - SumLogRange(1, |k|)
    else -Log(1.0 - probs[k])
  }

  /** The running length `lenCovering` after visiting `order`: the total size of the used generators in it. */
  function RunningLength(order: seq<Sequence>, cache: Cache, covering: multiset<Sequence>): nat
    requires forall k :: k in order ==> k in cache
  {
    if order == [] then 0
    else RunningLength(order[..|order| - 1], cache, covering) + UsedSize(cache, covering, order[|order| - 1])
  }

  /** The cost as the loop accumulates it when it visits the generators in `order`. */
  function CostInOrder(order: seq<Sequence>, cache: Cache, probs: Cache, covering: multiset<Sequence>): real
    requires forall k :: k in order ==> k in cache && k in probs
  {
    if order == [] then 0.0
    else
      var prefix := order[..|order| - 1];
      CostInOrder(prefix, cache, probs, covering) +
        RunningTerm(cache, probs, covering, order[|order| - 1], RunningLength(prefix, cache, covering))
  }

  /** Visiting one more generator adds its running term. */
  lemma InOrderSnoc(order: seq<Sequence>, g: Sequence, cache: Cache, probs: Cache, covering: multiset<Sequence>)
    requires forall k :: k in order ==> k in cache && k in probs
    requires g in cache && g in probs
    ensures RunningLength(order + [g], cache, covering) == RunningLength(order, cache, covering) + UsedSize(cache, covering, g)
    ensures CostInOrder(order + [g], cache, probs, covering)
         == CostInOrder(order, cache, probs, covering) + RunningTerm(cache, probs, covering, g, RunningLength(order, cache, covering))
  {
    assert (order + [g])[..|order|] == order;
  }

  /**
   * A loop that visits, once each, exactly the cached generators the map
   * prices has accumulated the covering's cost.
   */
  lemma VisitedAll(visited: seq<Sequence>, cache: Cache, probs: Cache, covering: multiset<Sequence>)
    requires Distinct(visited)
    requires forall k :: k in visited <==> k in cache && k in probs
    ensures CostInOrder(visited, cache, probs, covering) == CoveringCost(cache, probs, covering)
  {
    CostInOrderTelescopes(visited, cache, probs, covering);
    RunningLengthIsUsedLength(visited, cache, covering);
    assert Elems(visited) == cache.Keys * probs.Keys;
  }

  /**
   * The ordering terms telescope: whatever the visiting order, the
   * accumulated cost is the sum of the generators' terms plus
   * sumLogRange(1, L), L the total size of the used generators.
   */
  lemma {:induction false} RunningLengthIsUsedLength(order: seq<Sequence>, cache: Cache, covering: multiset<Sequence>)
    requires Distinct(order)
    requires forall k :: k in order ==> k in cache
    ensures RunningLength(order, cache, covering) == UsedLength(Elems(order), cache, covering)
  {
    if order != [] {
      var prefix, k := order[..|order| - 1], order[|order| - 1];
      ElemsOfPrefix(order);
      RunningLengthIsUsedLength(prefix, cache, covering);
      UsedLengthRemove(Elems(order), cache, covering, k);
    }
  }

  lemma {:induction false} CostInOrderTelescopes(order: seq<Sequence>, cache: Cache, probs: Cache, covering: multiset<Sequence>)
    requires Distinct(order)
    requires forall k :: k in order ==> k in cache && k in probs
    ensures CostInOrder(order, cache, probs, covering)
         == TermSum(Elems(order), cache, probs, covering) + SumLogRange(1, RunningLength(order, cache, covering))
  {
    if order != [] {
      var prefix, k := order[..|order| - 1], order[|order| - 1];
      ElemsOfPrefix(order);
      CostInOrderTelescopes(prefix, cache, probs, covering);
      TermSumRemove(Elems(order), cache, probs, covering, k);
      assert order == prefix + [k];
      InOrderSnoc(prefix, k, cache, probs, covering);
      RunningTermTelescopes(cache, probs, covering, k, RunningLength(prefix, cache, covering));
    }
  }

  /**
   * The running term of a generator visited at running length `l`, together
   * with sumLogRange(1, l), is its order-free term plus sumLogRange(1, l')
   * with `l'` the running length after it.
   */
  lemma RunningTermTelescopes(cache: Cache, probs: Cache, covering: multiset<Sequence>, k: Sequence, l: nat)
    requires k in cache && k in probs
    ensures RunningTerm(cache, probs, covering, k, l) + SumLogRange(1, l)
         == Term(cache, probs, covering, k) + SumLogRange(1, l + UsedSize(cache, covering, k))
  {
    if IsUsed(cache, covering, k) {
      SumLogRangeSplit(1, l, l + |k|);
    }
  }

  /** Dropping the last generator of a list without repeats removes exactly that generator. */
  lemma ElemsOfPrefix(order: seq<Sequence>)
    requires Distinct(order) && order != []
    ensures Distinct(order[..|order| - 1])
    ensures Elems(order[..|order| - 1]) == Elems(order) - {order[|order| - 1]}
  {
    var prefix, k := order[..|order| - 1], order[|order| - 1];
    forall j | 0 <= j < |prefix| ensures prefix[j] != k {
      assert prefix[j] == order[j];
    }
    assert order == prefix + [k];
  }

  /** The cost accumulated by the loop does not depend on the iteration order of the cache. */
  lemma CostIndependentOfOrder(order1: seq<Sequence>, order2: seq<Sequence>, cache: Cache, probs: Cache, covering: multiset<Sequence>)
    requires Distinct(order1) && Distinct(order2) && Elems(order1) == Elems(order2)
    requires forall k :: k in order1 ==> k in cache && k in probs
    requires forall k :: k in order2 ==> k in cache && k in probs
    ensures CostInOrder(order1, cache, probs, covering) == CostInOrder(order2, cache, probs, covering)
  {
    CostInOrderTelescopes(order1, cache, probs, covering);
    CostInOrderTelescopes(order2, cache, probs, covering);
    RunningLengthIsUsedLength(order1, cache, covering);
    RunningLengthIsUsedLength(order2, cache, covering);
  }

  lemma {:induction false} TermSumIgnoresMultiplicity(ks: set<Sequence>, cache: Cache, probs: Cache, covering1: multiset<Sequence>, covering2: multiset<Sequence>)
    requires ks <= cache.Keys && ks <= probs.Keys
    requires forall k :: k in covering1 <==> k in covering2
    ensures TermSum(ks, cache, probs, covering1) == TermSum(ks, cache, probs, covering2)
    ensures UsedLength(ks, cache, covering1) == UsedLength(ks, cache, covering2)
    decreases ks
  {
    if ks != {} {
      var k :| k in ks;
      TermSumRemove(ks, cache, probs, covering1, k);
      TermSumRemove(ks, cache, probs, covering2, k);
      UsedLengthRemove(ks, cache, covering1, k);
      UsedLengthRemove(ks, cache, covering2, k);
      TermSumIgnoresMultiplicity(ks - {k}, cache, probs, covering1, covering2);
    }
  }

  /** Only whether the covering contains a generator matters, not how many times. */
  lemma CostIgnoresMultiplicity(cache: Cache, probs: Cache, covering1: multiset<Sequence>, covering2: multiset<Sequence>)
    requires forall k :: k in covering1 <==> k in covering2
    ensures CoveringCost(cache, probs, covering1) == CoveringCost(cache, probs, covering2)
  {
    TermSumIgnoresMultiplicity(cache.Keys * probs.Keys, cache, probs, covering1, covering2);
  }

  lemma {:induction false} TermSumAgreeingMap(ks: set<Sequence>, cache: Cache, probs: Cache, covering: multiset<Sequence>)
    requires ks <= cache.Keys && ks <= probs.Keys
    requires forall k :: k in ks ==> probs[k] == cache[k]
    ensures TermSum(ks, cache, probs, covering) == TermSum(ks, cache, cache, covering)
    decreases ks
  {
    if ks != {} {
      var k :| k in ks;
      TermSumRemove(ks, cache, probs, covering, k);
      TermSumRemove(ks, cache, cache, covering, k);
      TermSumAgreeingMap(ks - {k}, cache, probs, covering);
    }
  }

  /**
   * Pricing a covering with a map that agrees with the cache on every cached
   * generator gives the cost computed from the cache alone.
   */
  lemma CostUnderAgreeingMap(cache: Cache, probs: Cache, covering: multiset<Sequence>)
    requires forall k :: k in cache ==> k in probs && probs[k] == cache[k]
    ensures CoveringCost(cache, probs, covering) == CoveringCost(cache, cache, covering)
  {
    assert cache.Keys * probs.Keys == cache.Keys;
    assert cache.Keys * cache.Keys == cache.Keys;
    TermSumAgreeingMap(cache.Keys, cache, probs, covering);
  }

  /**
   * The body of the cost loops: add one generator's running term to the
   * total, and its size to the running length when it is used. The zero test
   * reads the cache, the logarithm the supplied probability.
   */
  method AddRunningTerm(cache: Cache, probs: Cache, covering: multiset<Sequence>, g: Sequence, totalCost: real, lenCovering: nat)
    returns (newCost: real, newLength: nat)
    requires g in cache && g in probs
    ensures newCost == totalCost + RunningTerm(cache, probs, covering, g, lenCovering)
    ensures newLength == lenCovering + UsedSize(cache, covering, g)
  {
    var prob := probs[g];
    if g in covering && cache[g] != 0.0 {
      var inner := SumLogRangeLoop(lenCovering + 1, lenCovering + |g|);
      var own := SumLogRangeLoop(1, |g|);
      newCost := totalCost + (-Log(prob) + inner - own);
      newLength := lenCovering + |g|;
    } else {
      newCost := totalCost + -Log(1.0 - prob);
      newLength := lenCovering;
    }
  }

  // ---------------------------------------------------------------------------
  // The transaction object
  // ---------------------------------------------------------------------------

  class Transaction {
    /** The items of the transaction, in order; they never change. */
    const items: seq<Item>
    var cachedSequences: Cache
    var cachedCovering: multiset<Sequence>
    var tempCachedCovering: multiset<Sequence>

    constructor (items: seq<Item>)
      ensures this.items == items
      ensures cachedSequences == map[] && cachedCovering == multiset{} && tempCachedCovering == multiset{}
    {
      this.items := items;
      cachedSequences := map[];
      cachedCovering := multiset{};
      tempCachedCovering := multiset{};
    }

    /** Every cached generator is contained in the transaction. */
    ghost predicate CacheSupported()
      reads this
    {
      Supports(items, cachedSequences)
    }

    /** Seed the cache with every counted singleton the transaction contains, valued count / noTransactions. */
    method InitializeCachedSequences(singletons: multiset<Sequence>, noTransactions: nat)
      requires noTransactions > 0
      modifies this`cachedSequences
      ensures cachedSequences == Seeded(items, singletons, noTransactions)
      ensures forall s :: s in cachedSequences <==> s in singletons && Contains(items, s)
      ensures forall s :: s in cachedSequences ==> cachedSequences[s] == singletons[s] as real / noTransactions as real
      ensures CacheSupported()
    {
      cachedSequences := map[];
      var todo := set s | s in singletons;
      while todo != {}
        invariant forall s :: s in cachedSequences <==> s in singletons && s !in todo && Contains(items, s)
        invariant forall s :: s in cachedSequences ==> cachedSequences[s] == singletons[s] as real / noTransactions as real
        decreases todo
      {
        var s :| s in todo;
        if Contains(items, s) {
          cachedSequences := cachedSequences[s := singletons[s] as real / noTransactions as real];
        }
        todo := todo - {s};
      }
    }

    method AddSequenceCache(candidate: Sequence, prob: real)
      modifies this`cachedSequences
      ensures cachedSequences == old(cachedSequences)[candidate := prob]
    {
      cachedSequences := cachedSequences[candidate := prob];
    }

    method RemoveSequenceCache(candidate: Sequence)
      modifies this`cachedSequences
      ensures cachedSequences == old(cachedSequences) - {candidate}
    {
      cachedSequences := cachedSequences - {candidate};
    }

    /** Refresh every cached generator from `newSequences`, visiting them in an arbitrary order. */
    method UpdateCachedSequences(newSequences: Cache)
      modifies this`cachedSequences
      ensures cachedSequences == Refreshed(old(cachedSequences), newSequences)
      ensures forall k :: k in cachedSequences <==> k in old(cachedSequences) && (k in newSequences || |k| == 1)
      ensures forall k :: k in cachedSequences && k in newSequences ==> cachedSequences[k] == newSequences[k]
      ensures forall k :: k in cachedSequences && k !in newSequences ==> cachedSequences[k] == 0.0
    {
      ghost var before := cachedSequences;
      var todo := cachedSequences.Keys;
      while todo != {}
        invariant todo <= before.Keys
        invariant forall k :: k in cachedSequences <==> k in before && (k in todo || k in newSequences || |k| == 1)
        invariant forall k :: k in cachedSequences ==>
          cachedSequences[k] == if k in todo then before[k] else if k in newSequences then newSequences[k] else 0.0
        decreases todo
      {
        var key :| key in todo;
        if key in newSequences {
          cachedSequences := cachedSequences[key := newSequences[key]];
        } else if |key| == 1 {
          cachedSequences := cachedSequences[key := 0.0];
        } else {
          cachedSequences := cachedSequences - {key};
        }
        todo := todo - {key};
      }
    }

    /** The cost of the stored covering, priced by the cache itself (the hard EM cost). */
    method GetCachedCost() returns (totalCost: real)
      ensures totalCost == CoveringCost(cachedSequences, cachedSequences, cachedCovering)
    {
      var cache, covering := cachedSequences, cachedCovering;
      totalCost := 0.0;
      var lenCovering := 0;
      var todo := cache.Keys;
      ghost var visited: seq<Sequence> := [];
      while todo != {}
        invariant todo <= cache.Keys
        invariant forall k :: k in visited <==> k in cache && k !in todo
        invariant Distinct(visited)
        invariant lenCovering == RunningLength(visited, cache, covering)
        invariant totalCost == CostInOrder(visited, cache, cache, covering)
        decreases todo
      {
        var g :| g in todo;
        InOrderSnoc(visited, g, cache, cache, covering);
        DistinctSnoc(visited, g);
        totalCost, lenCovering := AddRunningTerm(cache, cache, covering, g, totalCost, lenCovering);
        visited := visited + [g];
        todo := todo - {g};
      }
      VisitedAll(visited, cache, cache, covering);
    }

    /** The cost of the stored covering, priced by `sequences` (structural EM). */
    method GetCachedCostUnder(sequences: Cache) returns (totalCost: real)
      ensures totalCost == CoveringCost(cachedSequences, sequences, cachedCovering)
    {
      totalCost := CalculateCachedCost(sequences, cachedCovering);
    }

    /** The cost of the temporary covering, priced by `sequences` (structural EM). */
    method GetTempCachedCost(sequences: Cache) returns (totalCost: real)
      ensures totalCost == CoveringCost(cachedSequences, sequences, tempCachedCovering)
    {
      totalCost := CalculateCachedCost(sequences, tempCachedCovering);
    }

    /**
     * The cost of `covering`: cached generators absent from `sequences` are
     * skipped; the log terms use the supplied probability, the zero test the
     * cached one.
     */
    method CalculateCachedCost(sequences: Cache, covering: multiset<Sequence>) returns (totalCost: real)
      ensures totalCost == CoveringCost(cachedSequences, sequences, covering)
    {
      var cache := cachedSequences;
      totalCost := 0.0;
      var lenCovering := 0;
      var todo := cache.Keys;
      ghost var visited: seq<Sequence> := [];
      while todo != {}
        invariant todo <= cache.Keys
        invariant forall k :: k in visited <==> k in cache && k !in todo && k in sequences
        invariant Distinct(visited)
        invariant lenCovering == RunningLength(visited, cache, covering)
        invariant totalCost == CostInOrder(visited, cache, sequences, covering)
        decreases todo
      {
        var g :| g in todo;
        if g in sequences {
          InOrderSnoc(visited, g, cache, sequences, covering);
          DistinctSnoc(visited, g);
          totalCost, lenCovering := AddRunningTerm(cache, sequences, covering, g, totalCost, lenCovering);
          visited := visited + [g];
        }
        todo := todo - {g};
      }
      VisitedAll(visited, cache, sequences, covering);
    }

    method SetCachedCovering(covering: multiset<Sequence>)
      modifies this`cachedCovering
      ensures cachedCovering == covering
    {
      cachedCovering := covering;
    }

    method SetTempCachedCovering(covering: multiset<Sequence>)
      modifies this`tempCachedCovering
      ensures tempCachedCovering == covering
    {
      tempCachedCovering := covering;
    }
  }
}
