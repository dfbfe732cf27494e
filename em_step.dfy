/**
 * The EM steps of the miner over a database of transactions: hard EM (decode
 * every transaction, re-estimate every generator's probability as the fraction
 * of coverings that contain it, refresh every cache), the structural trial of a
 * candidate generator, the acceptance of a candidate, the average cost and the
 * distribution of multiplicities.
 *
 * Each step is specified by a function on the transactions' states (`View`s);
 * the methods run the step on the `Transaction` objects and are proved to
 * produce that function's result.
 */
module EMStep {
  import opened Sequences
  import opened ExtendedReals
  import opened TransactionCache

  /** The inference algorithm: a covering for a transaction's items, given its cache. */
  type Decoder = (seq<Item>, Cache) -> multiset<Sequence>

  // ---------------------------------------------------------------------------
  // Counting folds (the `groupingBy(identity(), counting())` collectors)
  // ---------------------------------------------------------------------------

  /** The distinct generators of a covering (`elementSet`). */
  function ElementSet(covering: multiset<Sequence>): set<Sequence>
  {
    set g | g in covering
  }

  /** The (generator, multiplicity) entries of a covering (`entrySet`). */
  function Entries(covering: multiset<Sequence>): set<(Sequence, nat)>
  {
    set g | g in covering :: (g, covering[g])
  }

  /** One more set folded into the counts: each of its elements counted once more. */
  function AddOnce<K>(counts: map<K, nat>, s: set<K>): map<K, nat>
  {
    map x | x in counts.Keys + s :: (if x in counts then counts[x] else 0) + (if x in s then 1 else 0)
  }

  /** For each element of some set, the number of sets that hold it. */
  function GroupCounts<K>(sets: seq<set<K>>): map<K, nat>
    decreases |sets|
  {
    if sets == [] then map[] else AddOnce(GroupCounts(sets[..|sets| - 1]), sets[|sets| - 1])
  }

  /** The indices of the sets that hold `x`. */
  ghost function Holders<K>(sets: seq<set<K>>, x: K): set<nat>
  {
    set i: nat | i < |sets| && x in sets[i]
  }

  lemma HoldersSnoc<K>(sets: seq<set<K>>, x: K)
    requires sets != []
    ensures Holders(sets, x) == Holders(sets[..|sets| - 1], x) + (if x in sets[|sets| - 1] then {|sets| - 1} else {})
    ensures |sets| - 1 !in Holders(sets[..|sets| - 1], x)
  {
  }

  /** The fold counts, for every element, exactly the sets holding it, and knows no other element. */
  lemma {:induction false} GroupCountsCounts<K>(sets: seq<set<K>>)
    ensures forall x :: x in GroupCounts(sets) <==> Holders(sets, x) != {}
    ensures forall x :: x in GroupCounts(sets) ==> GroupCounts(sets)[x] == |Holders(sets, x)|
    decreases |sets|
  {
    if sets != [] {
      var prefix := sets[..|sets| - 1];
      GroupCountsCounts(prefix);
      forall x ensures (x in GroupCounts(sets) <==> Holders(sets, x) != {})
        && (x in GroupCounts(sets) ==> GroupCounts(sets)[x] == |Holders(sets, x)|)
      {
        HoldersSnoc(sets, x);
        if x in sets[|sets| - 1] {
          DisjointUnionSize(Holders(prefix, x), {|sets| - 1});
        }
      }
    }
  }

  /** Counts divided by the number of transactions (the `toMap` of the M-step). */
  function Frequencies<K>(counts: map<K, nat>, n: nat): map<K, real>
    requires n == 0 ==> counts == map[]
  {
    map x | x in counts :: counts[x] as real / n as real
  }

  // ---------------------------------------------------------------------------
  // The M-step and the count distribution
  // ---------------------------------------------------------------------------

  /** The indices of the coverings that contain `g` at least once. */
  ghost function Supporting(coverings: seq<multiset<Sequence>>, g: Sequence): set<nat>
  {
    set i: nat | i < |coverings| && g in coverings[i]
  }

  function ElementSets(coverings: seq<multiset<Sequence>>): seq<set<Sequence>>
  {
    seq(|coverings|, i requires 0 <= i < |coverings| => ElementSet(coverings[i]))
  }

  /**
   * The re-estimated probabilities: a generator is a key exactly when some
   * covering contains it, and its value is the fraction of coverings that
   * contain it (each covering counted once, whatever the multiplicity), a
   * number in (0, 1].
   */
  function NewSequences(coverings: seq<multiset<Sequence>>): (m: Cache)
    ensures forall g :: g in m <==> exists i :: 0 <= i < |coverings| && g in coverings[i]
    ensures forall g :: g in m ==> m[g] == |Supporting(coverings, g)| as real / |coverings| as real
    ensures forall g :: g in m ==> 0.0 < m[g] <= 1.0
  {
    var sets := ElementSets(coverings);
    var counts := GroupCounts(sets);
    GroupCountsCounts(sets);
    assert forall g :: Holders(sets, g) == Supporting(coverings, g);
    assert forall g :: g in counts ==> Supporting(coverings, g) <= Range(|coverings|);
    SupportingBounds(coverings);
    Frequencies(counts, |coverings|)
  }

  /** At least one and at most all of the coverings support a generator that occurs. */
  lemma SupportingBounds(coverings: seq<multiset<Sequence>>)
    ensures forall g :: |Supporting(coverings, g)| <= |coverings|
    ensures forall g :: Supporting(coverings, g) != {} <==> exists i :: 0 <= i < |coverings| && g in coverings[i]
    ensures forall g :: Supporting(coverings, g) != {} ==> 0.0 < |Supporting(coverings, g)| as real / |coverings| as real <= 1.0
  {
    forall g ensures |Supporting(coverings, g)| <= |coverings| {
      PositionsSize(Supporting(coverings, g), |coverings|);
    }
    forall g | Supporting(coverings, g) != {}
      ensures 0.0 < |Supporting(coverings, g)| as real / |coverings| as real <= 1.0
    {
      var i :| i in Supporting(coverings, g);
      FractionBounds(|Supporting(coverings, g)|, |coverings|);
    }
    forall g | exists i :: 0 <= i < |coverings| && g in coverings[i]
      ensures Supporting(coverings, g) != {}
    {
      var i :| 0 <= i < |coverings| && g in coverings[i];
      assert i in Supporting(coverings, g);
    }
  }

  lemma FractionBounds(k: nat, n: nat)
    requires 0 < k <= n
    ensures 0.0 < k as real / n as real <= 1.0
  {
  }

  /** The indices of the coverings that contain `g` exactly `k` times. */
  ghost function WithCount(coverings: seq<multiset<Sequence>>, g: Sequence, k: nat): set<nat>
  {
    set i: nat | i < |coverings| && coverings[i][g] == k
  }

  function EntrySets(coverings: seq<multiset<Sequence>>): seq<set<(Sequence, nat)>>
  {
    seq(|coverings|, i requires 0 <= i < |coverings| => Entries(coverings[i]))
  }

  /**
   * The distribution of multiplicities: entry (g, k) is present exactly when
   * k >= 1 and some covering contains g exactly k times, and its value is the
   * fraction of coverings that do.
   */
  function CountDistribution(coverings: seq<multiset<Sequence>>): (d: map<(Sequence, nat), real>)
    ensures forall e :: e in d <==> e.1 >= 1 && exists i :: 0 <= i < |coverings| && coverings[i][e.0] == e.1
    ensures forall e :: e in d ==> d[e] == |WithCount(coverings, e.0, e.1)| as real / |coverings| as real
  {
    var sets := EntrySets(coverings);
    var counts := GroupCounts(sets);
    GroupCountsCounts(sets);
    EntryHolders(coverings);
    Frequencies(counts, |coverings|)
  }

  lemma EntryHolders(coverings: seq<multiset<Sequence>>)
    ensures forall e: (Sequence, nat) :: Holders(EntrySets(coverings), e) == (if e.1 >= 1 then WithCount(coverings, e.0, e.1) else {})
    ensures forall e: (Sequence, nat) :: e.1 >= 1 ==>
      (WithCount(coverings, e.0, e.1) != {} <==> exists i :: 0 <= i < |coverings| && coverings[i][e.0] == e.1)
  {
    forall e: (Sequence, nat) ensures e.1 >= 1 ==>
      (WithCount(coverings, e.0, e.1) != {} <==> exists i :: 0 <= i < |coverings| && coverings[i][e.0] == e.1)
    {
      if e.1 >= 1 && exists i :: 0 <= i < |coverings| && coverings[i][e.0] == e.1 {
        var i :| 0 <= i < |coverings| && coverings[i][e.0] == e.1;
        assert i in WithCount(coverings, e.0, e.1);
      }
    }
  }

  /** Sum of the row of `g` over the multiplicities 1 .. k. */
  ghost function RowSum(d: map<(Sequence, nat), real>, g: Sequence, k: nat): real
  {
    if k == 0 then 0.0 else RowSum(d, g, k - 1) + (if (g, k) in d then d[(g, k)] else 0.0)
  }

  /** The indices of the coverings that contain `g` between 1 and `k` times. */
  ghost function WithCountUpTo(coverings: seq<multiset<Sequence>>, g: Sequence, k: nat): set<nat>
  {
    set i: nat | i < |coverings| && 1 <= coverings[i][g] <= k
  }

  lemma {:induction false} RowSumUpTo(coverings: seq<multiset<Sequence>>, g: Sequence, k: nat)
    requires |coverings| > 0
    ensures RowSum(CountDistribution(coverings), g, k) == |WithCountUpTo(coverings, g, k)| as real / |coverings| as real
  {
    if k > 0 {
      RowSumUpTo(coverings, g, k - 1);
      DistributionEntry(coverings, g, k);
      UpToSplit(coverings, g, k);
      AddFractions(|WithCountUpTo(coverings, g, k - 1)|, |WithCount(coverings, g, k)|, |coverings|);
    }
  }

  /** An entry of the distribution, read as 0 when absent, is the fraction of coverings holding `g` exactly `k` times. */
  lemma DistributionEntry(coverings: seq<multiset<Sequence>>, g: Sequence, k: nat)
    requires |coverings| > 0 && k >= 1
    ensures var d := CountDistribution(coverings);
      (if (g, k) in d then d[(g, k)] else 0.0) == |WithCount(coverings, g, k)| as real / |coverings| as real
  {
    if WithCount(coverings, g, k) != {} {
      var i :| i in WithCount(coverings, g, k);
      assert 0 <= i < |coverings| && coverings[i][(g, k).0] == (g, k).1;
    }
  }

  lemma UpToSplit(coverings: seq<multiset<Sequence>>, g: Sequence, k: nat)
    requires k >= 1
    ensures |WithCountUpTo(coverings, g, k)| == |WithCountUpTo(coverings, g, k - 1)| + |WithCount(coverings, g, k)|
  {
    assert WithCountUpTo(coverings, g, k) == WithCountUpTo(coverings, g, k - 1) + WithCount(coverings, g, k);
    DisjointUnionSize(WithCountUpTo(coverings, g, k - 1), WithCount(coverings, g, k));
  }

  lemma AddFractions(a: nat, b: nat, n: nat)
    requires n > 0
    ensures a as real / n as real + b as real / n as real == (a + b) as real / n as real
  {
  }

  /**
   * Summed over the multiplicities, the row of `g` in the count distribution
   * is the re-estimated probability of `g` from the same coverings (0 when `g`
   * occurs in none), once `k` reaches the largest multiplicity.
   */
  lemma RowSumIsProbability(coverings: seq<multiset<Sequence>>, g: Sequence, k: nat)
    requires forall i :: 0 <= i < |coverings| ==> coverings[i][g] <= k
    ensures RowSum(CountDistribution(coverings), g, k) == (if g in NewSequences(coverings) then NewSequences(coverings)[g] else 0.0)
  {
    if |coverings| == 0 {
      RowSumOfEmpty(CountDistribution(coverings), g, k);
    } else {
      RowSumUpTo(coverings, g, k);
      assert WithCountUpTo(coverings, g, k) == Supporting(coverings, g);
      if g !in NewSequences(coverings) {
        assert Supporting(coverings, g) == {};
      }
    }
  }

  lemma {:induction false} RowSumOfEmpty(d: map<(Sequence, nat), real>, g: Sequence, k: nat)
    requires d == map[]
    ensures RowSum(d, g, k) == 0.0
  {
    if k > 0 {
      RowSumOfEmpty(d, g, k - 1);
    }
  }

  // ---------------------------------------------------------------------------
  // The steps, on the transactions' states
  // ---------------------------------------------------------------------------

  /** A transaction's state: its items, its cache, its stored and its temporary covering. */
  datatype View = View(items: seq<Item>, cache: Cache, covering: multiset<Sequence>, temp: multiset<Sequence>)

  /** Hard EM's result: the new probabilities and the transactions' new states. */
  datatype Step = Step(probs: Cache, views: seq<View>)

  /** A structural trial's result: average cost, candidate probability, the transactions' new states. */
  datatype Trial = Trial(averageCost: XReal, prob: real, views: seq<View>)

  /** Sum of a list of costs, left to right. */
  function Sum(xs: seq<real>): real
  {
    if xs == [] then 0.0 else Sum(xs[..|xs| - 1]) + xs[|xs| - 1]
  }

  lemma SumSnoc(xs: seq<real>, i: nat)
    requires i < |xs|
    ensures Sum(xs[..i + 1]) == Sum(xs[..i]) + xs[i]
  {
    assert xs[..i + 1][..i] == xs[..i];
  }

  /** Every transaction's cache seeded from the singleton counts. */
  function Seed(views: seq<View>, singletons: multiset<Sequence>): (r: seq<View>)
    ensures |r| == |views|
    ensures forall i :: 0 <= i < |views| ==> r[i].items == views[i].items && r[i].covering == views[i].covering && r[i].temp == views[i].temp
    ensures forall i, s :: 0 <= i < |views| ==>
      (s in r[i].cache <==> s in singletons && Contains(views[i].items, s))
    ensures forall i, s :: 0 <= i < |views| && s in r[i].cache ==> r[i].cache[s] == singletons[s] as real / |views| as real
  {
    seq(|views|, i requires 0 <= i < |views| => views[i].(cache := Seeded(views[i].items, singletons, |views|)))
  }

  /** Every transaction's stored covering replaced by the one the decoder finds under its cache. */
  function DecodedViews(views: seq<View>, infer: Decoder): (r: seq<View>)
    ensures |r| == |views| && forall i :: 0 <= i < |views| ==> r[i] == views[i].(covering := infer(views[i].items, views[i].cache))
  {
    seq(|views|, i requires 0 <= i < |views| => views[i].(covering := infer(views[i].items, views[i].cache)))
  }

  /** Every transaction's cache refreshed from the new probabilities. */
  function RefreshedViews(views: seq<View>, probs: Cache): (r: seq<View>)
    ensures |r| == |views| && forall i :: 0 <= i < |views| ==> r[i] == views[i].(cache := Refreshed(views[i].cache, probs))
  {
    seq(|views|, i requires 0 <= i < |views| => views[i].(cache := Refreshed(views[i].cache, probs)))
  }

  /** The stored coverings of the transactions. */
  function Coverings(views: seq<View>): (r: seq<multiset<Sequence>>)
    ensures |r| == |views| && forall i :: 0 <= i < |views| ==> r[i] == views[i].covering
  {
    seq(|views|, i requires 0 <= i < |views| => views[i].covering)
  }

  /**
   * Hard EM: each transaction stores its decoded covering, the probabilities
   * are re-estimated from those coverings, and each cache is refreshed from
   * them; the temporary coverings are untouched.
   */
  function HardEM(views: seq<View>, infer: Decoder): (r: Step)
    ensures |r.views| == |views|
    ensures forall i :: 0 <= i < |views| ==>
      r.views[i] == views[i].(cache := Refreshed(views[i].cache, r.probs), covering := infer(views[i].items, views[i].cache))
    ensures forall g :: g in r.probs <==> exists i :: 0 <= i < |views| && g in infer(views[i].items, views[i].cache)
    ensures r.probs == NewSequences(Coverings(r.views))
  {
    var decoded := DecodedViews(views, infer);
    var probs := NewSequences(Coverings(decoded));
    var r := Step(probs, RefreshedViews(decoded, probs));
    assert Coverings(r.views) == Coverings(decoded);
    r
  }

  /** Hard EM never caches a generator the transaction did not cache before, and prices every key it keeps by the new map or 0. */
  lemma HardEMShrinksCaches(views: seq<View>, infer: Decoder, i: nat)
    requires i < |views|
    ensures HardEM(views, infer).views[i].cache.Keys <= views[i].cache.Keys
    ensures forall k :: k in HardEM(views, infer).views[i].cache ==>
      0.0 <= HardEM(views, infer).views[i].cache[k] <= 1.0
  {
    var r := HardEM(views, infer);
    RefreshedKeys(views[i].cache, r.probs);
  }

  /** The hard-EM cost of a transaction: its stored covering priced by its own cache. */
  ghost function HardCost(v: View): real
  {
    CoveringCost(v.cache, v.cache, v.covering)
  }

  ghost function HardCosts(views: seq<View>): (r: seq<real>)
    ensures |r| == |views| && forall i :: 0 <= i < |views| ==> r[i] == HardCost(views[i])
  {
    seq(|views|, i requires 0 <= i < |views| => HardCost(views[i]))
  }

  /** The average hard-EM cost; with no transactions 0 / 0, which is NaN. */
  ghost function AverageCost(views: seq<View>): (r: XReal)
    ensures |views| > 0 ==> r == Finite(Sum(HardCosts(views)) / |views| as real)
    ensures |views| == 0 ==> r.NaN?
  {
    DivBy(Finite(Sum(HardCosts(views))), |views|)
  }

  /** A supporting transaction's cache with the candidate set to `p`; other transactions unchanged. */
  function Added(v: View, candidate: Sequence, p: real): View
  {
    if Contains(v.items, candidate) then v.(cache := v.cache[candidate := p]) else v
  }

  /** First half of a trial: a supporting transaction caches the candidate at 1.0 and decodes into its temporary covering. */
  function TrialView(v: View, infer: Decoder, candidate: Sequence): View
  {
    var a := Added(v, candidate, 1.0);
    if Contains(v.items, candidate) then a.(temp := infer(a.items, a.cache)) else a
  }

  /** The covering a transaction contributes to a trial: the temporary one when it supports the candidate, the stored one otherwise. */
  function TrialCovering(v: View, candidate: Sequence): multiset<Sequence>
  {
    if Contains(v.items, candidate) then v.temp else v.covering
  }

  /** A transaction's cost in a trial, priced by the trial's probabilities. */
  ghost function TrialCost(v: View, candidate: Sequence, probs: Cache): real
  {
    CoveringCost(v.cache, probs, TrialCovering(v, candidate))
  }

  function TrialViews(views: seq<View>, infer: Decoder, candidate: Sequence): (r: seq<View>)
    ensures |r| == |views| && forall i :: 0 <= i < |views| ==> r[i] == TrialView(views[i], infer, candidate)
  {
    seq(|views|, i requires 0 <= i < |views| => TrialView(views[i], infer, candidate))
  }

  function TrialCoverings(trial: seq<View>, candidate: Sequence): (r: seq<multiset<Sequence>>)
    ensures |r| == |trial| && forall i :: 0 <= i < |trial| ==> r[i] == TrialCovering(trial[i], candidate)
  {
    seq(|trial|, i requires 0 <= i < |trial| => TrialCovering(trial[i], candidate))
  }

  ghost function TrialCosts(trial: seq<View>, candidate: Sequence, probs: Cache): (r: seq<real>)
    ensures |r| == |trial| && forall i :: 0 <= i < |trial| ==> r[i] == TrialCost(trial[i], candidate, probs)
  {
    seq(|trial|, i requires 0 <= i < |trial| => TrialCost(trial[i], candidate, probs))
  }

  /** Second half of a trial: the candidate leaves every cache. */
  function WithoutCandidate(trial: seq<View>, candidate: Sequence): (r: seq<View>)
    ensures |r| == |trial| && forall i :: 0 <= i < |trial| ==> r[i] == trial[i].(cache := trial[i].cache - {candidate})
  {
    seq(|trial|, i requires 0 <= i < |trial| => trial[i].(cache := trial[i].cache - {candidate}))
  }

  /** The first half of a trial changes a transaction's cache only at the candidate, and its items and stored covering not at all. */
  lemma TrialViewsKeep(views: seq<View>, infer: Decoder, candidate: Sequence)
    ensures forall i :: 0 <= i < |views| ==>
      && TrialViews(views, infer, candidate)[i].items == views[i].items
      && TrialViews(views, infer, candidate)[i].covering == views[i].covering
      && TrialViews(views, infer, candidate)[i].cache - {candidate} == views[i].cache - {candidate}
  {
    forall i | 0 <= i < |views|
      ensures TrialView(views[i], infer, candidate).cache - {candidate} == views[i].cache - {candidate}
    {
    }
  }

  /**
   * The structural trial of a candidate. Supporting transactions cache it at
   * 1.0 and decode into their temporary covering; the probabilities are
   * re-estimated from the temporary coverings of supporting transactions and
   * the stored coverings of the others; the result is the average cost under
   * those probabilities and the candidate's probability (0 when no covering
   * holds it). Afterwards no cache holds the candidate, every other cache
   * entry and every stored covering is as before, and only supporting
   * transactions have a new temporary covering.
   */
  ghost function StructuralEM(views: seq<View>, infer: Decoder, candidate: Sequence): (r: Trial)
    ensures |r.views| == |views|
    ensures forall i :: 0 <= i < |views| ==>
      && r.views[i].items == views[i].items
      && r.views[i].covering == views[i].covering
      && r.views[i].cache == views[i].cache - {candidate}
  {
    var trial := TrialViews(views, infer, candidate);
    var coverings := TrialCoverings(trial, candidate);
    var probs := NewSequences(coverings);
    var costs := TrialCosts(trial, candidate, probs);
    TrialViewsKeep(views, infer, candidate);
    Trial(DivBy(Finite(Sum(costs)), |views|),
          if candidate in probs then probs[candidate] else 0.0,
          WithoutCandidate(trial, candidate))
  }

  /**
   * After a trial no cache holds the candidate, every other cache entry and
   * every stored covering is as before, and only a supporting transaction has
   * a new temporary covering: the one decoded with the candidate at 1.0.
   */
  lemma StructuralEMRemovesCandidate(views: seq<View>, infer: Decoder, candidate: Sequence, i: nat)
    requires i < |views|
    ensures var v := StructuralEM(views, infer, candidate).views[i];
      v.items == views[i].items && v.covering == views[i].covering
      && v.cache == views[i].cache - {candidate}
      && v.temp == if Contains(views[i].items, candidate) then infer(views[i].items, views[i].cache[candidate := 1.0]) else views[i].temp
  {
    var trial := TrialViews(views, infer, candidate);
    assert StructuralEM(views, infer, candidate).views[i] == trial[i].(cache := trial[i].cache - {candidate});
    assert trial[i].cache - {candidate} == views[i].cache - {candidate};
  }

  /** A transaction whose cache did not hold the candidate ends a trial as it began, apart from its temporary covering. */
  lemma StructuralEMRestores(views: seq<View>, infer: Decoder, candidate: Sequence, i: nat)
    requires i < |views| && candidate !in views[i].cache
    ensures StructuralEM(views, infer, candidate).views[i].(temp := views[i].temp) == views[i]
  {
    StructuralEMRemovesCandidate(views, infer, candidate, i);
    assert views[i].cache - {candidate} == views[i].cache;
  }

  /**
   * The candidate's probability is a fraction in [0, 1], and it is 0 exactly
   * when no covering of the trial (the new temporary one of a supporting
   * transaction, the stored one of any other) contains the candidate.
   */
  lemma StructuralEMProbability(views: seq<View>, infer: Decoder, candidate: Sequence)
    ensures var r := StructuralEM(views, infer, candidate);
      0.0 <= r.prob <= 1.0
      && (r.prob == 0.0 <==> forall i :: 0 <= i < |views| ==> candidate !in TrialCovering(TrialView(views[i], infer, candidate), candidate))
  {
    var coverings := TrialCoverings(TrialViews(views, infer, candidate), candidate);
    assert forall i :: 0 <= i < |views| ==> coverings[i] == TrialCovering(TrialView(views[i], infer, candidate), candidate);
  }

  /** First half of acceptance: a supporting transaction caches the candidate at `prob` and promotes its temporary covering. */
  function AcceptedView(v: View, candidate: Sequence, prob: real): View
  {
    var a := Added(v, candidate, prob);
    if Contains(v.items, candidate) then a.(covering := a.temp) else a
  }

  function AcceptedViews(views: seq<View>, candidate: Sequence, prob: real): (r: seq<View>)
    ensures |r| == |views| && forall i :: 0 <= i < |views| ==> r[i] == AcceptedView(views[i], candidate, prob)
  {
    seq(|views|, i requires 0 <= i < |views| => AcceptedView(views[i], candidate, prob))
  }

  /**
   * Acceptance of a candidate: supporting transactions cache it at `prob` and
   * store their temporary covering; the probabilities are re-estimated from the
   * stored coverings and every cache is refreshed from them.
   */
  function AcceptCandidate(views: seq<View>, candidate: Sequence, prob: real): (r: Step)
    ensures |r.views| == |views|
    ensures forall i :: 0 <= i < |views| ==>
      r.views[i].covering == (if Contains(views[i].items, candidate) then views[i].temp else views[i].covering)
    ensures forall i :: 0 <= i < |views| ==> r.views[i].items == views[i].items && r.views[i].temp == views[i].temp
    ensures forall i :: 0 <= i < |views| ==>
      r.views[i].cache == Refreshed(if Contains(views[i].items, candidate) then views[i].cache[candidate := prob] else views[i].cache, r.probs)
    ensures r.probs == NewSequences(Coverings(r.views))
  {
    var accepted := AcceptedViews(views, candidate, prob);
    var probs := NewSequences(Coverings(accepted));
    var r := Step(probs, RefreshedViews(accepted, probs));
    assert Coverings(r.views) == Coverings(accepted);
    r
  }

  /**
   * After acceptance, a supporting transaction keeps the candidate in its
   * cache exactly when some stored covering contains it, then valued at its
   * re-estimated probability.
   */
  lemma AcceptedCandidateCached(views: seq<View>, candidate: Sequence, prob: real, i: nat)
    requires i < |views| && Contains(views[i].items, candidate)
    ensures var r := AcceptCandidate(views, candidate, prob);
      (candidate in r.views[i].cache <==> candidate in r.probs || |candidate| == 1)
      && (candidate in r.probs ==> r.views[i].cache[candidate] == r.probs[candidate])
  {
  }

  /** Every transaction caches only generators it contains. */
  ghost predicate AllSupported(views: seq<View>)
  {
    forall i :: 0 <= i < |views| ==> Supports(views[i].items, views[i].cache)
  }

  /**
   * Seeding gives caches of contained generators only, and hard EM, a
   * structural trial and an acceptance keep it so: a refresh only drops keys
   * and a candidate is cached only by the transactions that contain it.
   */
  lemma CachesStaySupported(views: seq<View>, infer: Decoder, candidate: Sequence, prob: real,
                            singletons: multiset<Sequence>)
    ensures AllSupported(Seed(views, singletons))
    ensures AllSupported(views) ==> AllSupported(HardEM(views, infer).views)
    ensures AllSupported(views) ==> AllSupported(StructuralEM(views, infer, candidate).views)
    ensures AllSupported(views) ==> AllSupported(AcceptCandidate(views, candidate, prob).views)
  {
    if AllSupported(views) {
      var hard := HardEM(views, infer);
      var accepted := AcceptCandidate(views, candidate, prob);
      forall i | 0 <= i < |views|
        ensures Supports(hard.views[i].items, hard.views[i].cache)
        ensures Supports(StructuralEM(views, infer, candidate).views[i].items, StructuralEM(views, infer, candidate).views[i].cache)
        ensures Supports(accepted.views[i].items, accepted.views[i].cache)
      {
        RefreshedKeys(views[i].cache, hard.probs);
        StructuralEMRemovesCandidate(views, infer, candidate, i);
        RefreshedKeys(Added(views[i], candidate, prob).cache, accepted.probs);
      }
    }
  }

  // ---------------------------------------------------------------------------
  // The database and the steps on the objects
  // ---------------------------------------------------------------------------

  /** The transactions with the average cost of the last EM step. */
  class TransactionDatabase {
    const transactionList: seq<Transaction>
    var averageCost: XReal

    constructor (transactionList: seq<Transaction>)
      ensures this.transactionList == transactionList && averageCost == Finite(0.0)
    {
      this.transactionList := transactionList;
      averageCost := Finite(0.0);
    }
  }

  ghost function ViewOf(t: Transaction): View
    reads t
  {
    View(t.items, t.cachedSequences, t.cachedCovering, t.tempCachedCovering)
  }

  ghost function ViewsOf(ts: seq<Transaction>): (r: seq<View>)
    reads set t | t in ts
    ensures |r| == |ts| && forall i :: 0 <= i < |ts| ==> r[i] == ViewOf(ts[i])
  {
    seq(|ts|, i requires 0 <= i < |ts| reads set t | t in ts => ViewOf(ts[i]))
  }

  // One transaction's share of each step (the bodies of the stream lambdas)

  method Decode(t: Transaction, infer: Decoder) returns (covering: multiset<Sequence>)
    modifies t
    ensures ViewOf(t) == old(ViewOf(t)).(covering := covering)
    ensures covering == infer(t.items, t.cachedSequences)
  {
    covering := infer(t.items, t.cachedSequences);
    t.SetCachedCovering(covering);
  }

  method Refresh(t: Transaction, newSequences: Cache)
    modifies t
    ensures ViewOf(t) == old(ViewOf(t)).(cache := Refreshed(old(t.cachedSequences), newSequences))
    ensures old(t.CacheSupported()) ==> t.CacheSupported()
  {
    t.UpdateCachedSequences(newSequences);
  }

  method TrialDecode(t: Transaction, infer: Decoder, candidate: Sequence) returns (covering: multiset<Sequence>)
    modifies t
    ensures ViewOf(t) == TrialView(old(ViewOf(t)), infer, candidate)
    ensures old(t.CacheSupported()) ==> t.CacheSupported()
    ensures covering == TrialCovering(ViewOf(t), candidate)
  {
    if Contains(t.items, candidate) {
      t.AddSequenceCache(candidate, 1.0);
      covering := infer(t.items, t.cachedSequences);
      t.SetTempCachedCovering(covering);
    } else {
      covering := t.cachedCovering;
    }
  }

  method TrialCostAndRemove(t: Transaction, candidate: Sequence, probs: Cache) returns (cost: real)
    modifies t
    ensures ViewOf(t) == old(ViewOf(t)).(cache := old(t.cachedSequences) - {candidate})
    ensures old(t.CacheSupported()) ==> t.CacheSupported()
    ensures cost == TrialCost(old(ViewOf(t)), candidate, probs)
  {
    if Contains(t.items, candidate) {
      cost := t.GetTempCachedCost(probs);
    } else {
      cost := t.GetCachedCostUnder(probs);
    }
    t.RemoveSequenceCache(candidate);
  }

  method Accept(t: Transaction, candidate: Sequence, prob: real) returns (covering: multiset<Sequence>)
    modifies t
    ensures ViewOf(t) == AcceptedView(old(ViewOf(t)), candidate, prob)
    ensures old(t.CacheSupported()) ==> t.CacheSupported()
    ensures covering == ViewOf(t).covering
  {
    if Contains(t.items, candidate) {
      t.AddSequenceCache(candidate, prob);
      covering := t.tempCachedCovering;
      t.SetCachedCovering(covering);
    } else {
      covering := t.cachedCovering;
    }
  }

  method SeedCache(t: Transaction, singletons: multiset<Sequence>, noTransactions: nat)
    requires noTransactions > 0
    modifies t
    ensures ViewOf(t) == old(ViewOf(t)).(cache := Seeded(t.items, singletons, noTransactions))
    ensures t.CacheSupported()
  {
    t.InitializeCachedSequences(singletons, noTransactions);
  }

  /** Seed every transaction's cache from the singleton counts. */
  method InitializeCachedItemsets(db: TransactionDatabase, singletons: multiset<Sequence>)
    requires Distinct(db.transactionList)
    modifies set t | t in db.transactionList
    ensures ViewsOf(db.transactionList) == Seed(old(ViewsOf(db.transactionList)), singletons)
  {
    var ts := db.transactionList;
    ghost var before := ViewsOf(ts);
    ghost var after := Seed(before, singletons);
    var noTransactions := |ts|;
    var i := 0;
    while i < |ts|
      invariant 0 <= i <= |ts|
      invariant forall j :: 0 <= j < |ts| ==> ViewOf(ts[j]) == if j < i then after[j] else before[j]
    {
      SeedCache(ts[i], singletons, noTransactions);
      i := i + 1;
    }
  }

  /** The E-step of hard EM: every transaction decodes and stores its covering; returns the coverings. */
  method DecodeAll(ts: seq<Transaction>, infer: Decoder) returns (coverings: seq<multiset<Sequence>>)
    requires Distinct(ts)
    modifies set t | t in ts
    ensures ViewsOf(ts) == DecodedViews(old(ViewsOf(ts)), infer)
    ensures coverings == Coverings(ViewsOf(ts))
  {
    ghost var before := ViewsOf(ts);
    ghost var after := DecodedViews(before, infer);
    coverings := [];
    var i := 0;
    while i < |ts|
      invariant 0 <= i <= |ts| && coverings == Coverings(after)[..i]
      invariant forall j :: 0 <= j < |ts| ==> ViewOf(ts[j]) == if j < i then after[j] else before[j]
    {
      var covering := Decode(ts[i], infer);
      coverings := coverings + [covering];
      i := i + 1;
    }
    assert coverings == Coverings(after);
  }

  /** Refresh every transaction's cache from `newSequences`. */
  method RefreshAll(ts: seq<Transaction>, newSequences: Cache)
    requires Distinct(ts)
    modifies set t | t in ts
    ensures ViewsOf(ts) == RefreshedViews(old(ViewsOf(ts)), newSequences)
  {
    ghost var before := ViewsOf(ts);
    ghost var after := RefreshedViews(before, newSequences);
    var i := 0;
    while i < |ts|
      invariant 0 <= i <= |ts|
      invariant forall j :: 0 <= j < |ts| ==> ViewOf(ts[j]) == if j < i then after[j] else before[j]
    {
      Refresh(ts[i], newSequences);
      i := i + 1;
    }
  }

  /** Hard EM on the transactions: returns the new probabilities. */
  method HardEMStep(ts: seq<Transaction>, infer: Decoder) returns (newSequences: Cache)
    requires Distinct(ts)
    modifies set t | t in ts
    ensures HardEM(old(ViewsOf(ts)), infer) == Step(newSequences, ViewsOf(ts))
  {
    // E-step
    var coverings := DecodeAll(ts, infer);
    // M-step
    newSequences := NewSequences(coverings);
    // Update the cached sequences
    RefreshAll(ts, newSequences);
  }

  /** Set the database's average cost to the mean hard-EM cost of its transactions. */
  method CalculateAndSetAverageCost(db: TransactionDatabase)
    modifies db`averageCost
    ensures db.averageCost == AverageCost(ViewsOf(db.transactionList))
  {
    var ts := db.transactionList;
    ghost var costs := HardCosts(ViewsOf(ts));
    var sum := 0.0;
    var i := 0;
    while i < |ts|
      invariant 0 <= i <= |ts| && sum == Sum(costs[..i])
    {
      var c := ts[i].GetCachedCost();
      SumSnoc(costs, i);
      sum := sum + c;
      i := i + 1;
    }
    assert costs[..i] == costs;
    db.averageCost := DivBy(Finite(sum), |ts|);
  }

  /** The E-step of a trial: supporting transactions cache the candidate and decode; returns every transaction's trial covering. */
  method TrialEStep(ts: seq<Transaction>, infer: Decoder, candidate: Sequence) returns (coverings: seq<multiset<Sequence>>)
    requires Distinct(ts)
    modifies set t | t in ts
    ensures ViewsOf(ts) == TrialViews(old(ViewsOf(ts)), infer, candidate)
    ensures coverings == TrialCoverings(ViewsOf(ts), candidate)
  {
    ghost var before := ViewsOf(ts);
    ghost var trial := TrialViews(before, infer, candidate);
    coverings := [];
    var i := 0;
    while i < |ts|
      invariant 0 <= i <= |ts| && coverings == TrialCoverings(trial, candidate)[..i]
      invariant forall j :: 0 <= j < |ts| ==> ViewOf(ts[j]) == if j < i then trial[j] else before[j]
    {
      var covering := TrialDecode(ts[i], infer, candidate);
      coverings := coverings + [covering];
      i := i + 1;
    }
    assert coverings == TrialCoverings(trial, candidate);
  }

  /** The cost pass of a trial: returns the sum of the trial costs and removes the candidate from every cache. */
  method TrialCostPass(ts: seq<Transaction>, candidate: Sequence, probs: Cache) returns (sum: real)
    requires Distinct(ts)
    modifies set t | t in ts
    ensures ViewsOf(ts) == WithoutCandidate(old(ViewsOf(ts)), candidate)
    ensures sum == Sum(TrialCosts(old(ViewsOf(ts)), candidate, probs))
  {
    ghost var trial := ViewsOf(ts);
    ghost var costs := TrialCosts(trial, candidate, probs);
    ghost var after := WithoutCandidate(trial, candidate);
    sum := 0.0;
    var i := 0;
    while i < |ts|
      invariant 0 <= i <= |ts| && sum == Sum(costs[..i])
      invariant forall j :: 0 <= j < |ts| ==> ViewOf(ts[j]) == if j < i then after[j] else trial[j]
    {
      var cost := TrialCostAndRemove(ts[i], candidate, probs);
      SumSnoc(costs, i);
      sum := sum + cost;
      i := i + 1;
    }
    assert costs[..i] == costs;
  }

  /** The structural trial of `candidate`: returns the average cost and the candidate's probability. */
  method StructuralEMStep(db: TransactionDatabase, infer: Decoder, candidate: Sequence) returns (averageCost: XReal, prob: real)
    requires Distinct(db.transactionList)
    modifies set t | t in db.transactionList
    ensures StructuralEM(old(ViewsOf(db.transactionList)), infer, candidate) == Trial(averageCost, prob, ViewsOf(db.transactionList))
  {
    var ts := db.transactionList;
    // E-step, adding the candidate to the supporting transactions
    var coverings := TrialEStep(ts, infer, candidate);
    // M-step
    var newSequences := NewSequences(coverings);
    // Average cost, removing the candidate again
    var sum := TrialCostPass(ts, candidate, newSequences);
    averageCost := DivBy(Finite(sum), |ts|);
    // Candidate probability
    if candidate in newSequences {
      prob := newSequences[candidate];
    } else {
      prob := 0.0;
    }
  }

  /** The cached E-step of acceptance: supporting transactions cache the candidate and store their temporary covering; returns the coverings. */
  method AcceptAll(ts: seq<Transaction>, candidate: Sequence, prob: real) returns (coverings: seq<multiset<Sequence>>)
    requires Distinct(ts)
    modifies set t | t in ts
    ensures ViewsOf(ts) == AcceptedViews(old(ViewsOf(ts)), candidate, prob)
    ensures coverings == Coverings(ViewsOf(ts))
  {
    ghost var before := ViewsOf(ts);
    ghost var after := AcceptedViews(before, candidate, prob);
    coverings := [];
    var i := 0;
    while i < |ts|
      invariant 0 <= i <= |ts| && coverings == Coverings(after)[..i]
      invariant forall j :: 0 <= j < |ts| ==> ViewOf(ts[j]) == if j < i then after[j] else before[j]
    {
      var covering := Accept(ts[i], candidate, prob);
      coverings := coverings + [covering];
      i := i + 1;
    }
    assert coverings == Coverings(after);
  }

  /** Accept `candidate` with probability `prob`: returns the new probabilities. */
  method AddAcceptedCandidateCache(db: TransactionDatabase, candidate: Sequence, prob: real) returns (newSequences: Cache)
    requires Distinct(db.transactionList)
    modifies set t | t in db.transactionList
    ensures AcceptCandidate(old(ViewsOf(db.transactionList)), candidate, prob) == Step(newSequences, ViewsOf(db.transactionList))
  {
    var ts := db.transactionList;
    // Cached E-step, adding the candidate to the supporting transactions
    var coverings := AcceptAll(ts, candidate, prob);
    // M-step
    newSequences := NewSequences(coverings);
    // Update the cached sequences
    RefreshAll(ts, newSequences);
  }
}
