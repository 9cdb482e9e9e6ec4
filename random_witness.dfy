/** A witness whose opinions come from the beta reputation formula instead
    of its cache: random values for flagged providers, or the most positive or
    most negative opinion its interaction counts allow. */
module RandomWitnesses {
  import opened Errors
  import opened Arith
  import opened Collections
  import opened Agents
  import opened Providers
  import opened Witnesses

  /** `brs(p, n) = (p + 1) / (p + n + 2)`; a zero denominator raises. */
  function Brs(p: real, n: real): (r: Result<real>)
    ensures p + n + 2.0 == 0.0 <==> r == Err(ZeroDivision)
    ensures r.Ok? ==> r.value * (p + n + 2.0) == p + 1.0
  {
    if p + n + 2.0 == 0.0 then Err(ZeroDivision) else Ok((p + 1.0) / (p + n + 2.0))
  }

  /** For non-negative counts the reputation is defined and strictly
      between 0 and 1. */
  lemma BrsInUnitInterval(p: real, n: real)
    requires 0.0 <= p && 0.0 <= n
    ensures Brs(p, n).Ok? && 0.0 < Brs(p, n).value < 1.0
  {
    QuotientBounds(p + 1.0, p + n + 2.0);
  }

  /** Only positive interactions give at least 1/2, only negative ones at
      most 1/2. */
  lemma BrsOneSided(total: real)
    requires 0.0 <= total
    ensures Brs(total, 0.0).Ok? && Brs(total, 0.0).value >= 0.5
    ensures Brs(0.0, total).Ok? && Brs(0.0, total).value <= 0.5
  {
    QuotientBounds(total + 1.0, total + 2.0);
    QuotientBounds(1.0, total + 2.0);
    assert (total + 1.0) / (total + 2.0) >= 0.5 by {
      assert 2.0 * (total + 1.0) >= total + 2.0;
    }
  }

  /** One solution (p, n) of brs(p, n) = z. */
  datatype PnPair = PnPair(p: real, n: real)

  /** n solves brs(p, n) = z for the given p: `n = (p + 1)/z - p - 2`. */
  lemma {:induction false} SolvedPairRoundTrips(p: real, z: real)
    requires z != 0.0 && p + 1.0 != 0.0
    ensures Brs(p, (p + 1.0) / z - p - 2.0) == Ok(z)
  {
    var n := (p + 1.0) / z - p - 2.0;
    assert p + n + 2.0 == (p + 1.0) / z;
    assert (p + 1.0) / z != 0.0;
    var d := (p + 1.0) / z;
    assert d * z == p + 1.0;
    assert (p + 1.0) / d == z;
  }

  /** `get_pn_pairs(z, k)`: k pairs, the i-th with p = i, each of which
      solves the formula for z. z = 0 raises at the first division. */
  method GetPnPairs(z: real, k: nat) returns (r: Result<seq<PnPair>>)
    ensures r.Err? <==> z == 0.0 && k > 0
    ensures r.Err? ==> r.error == ZeroDivision
    ensures r.Ok? ==> |r.value| == k
    ensures r.Ok? ==> forall i :: 0 <= i < k ==> r.value[i].p == i as real && Brs(r.value[i].p, r.value[i].n) == Ok(z)
  {
    var pairs: seq<PnPair> := [];
    for i := 0 to k
      invariant i > 0 ==> z != 0.0
      invariant |pairs| == i
      invariant forall j :: 0 <= j < i ==> pairs[j].p == j as real && Brs(pairs[j].p, pairs[j].n) == Ok(z)
    {
      if z == 0.0 {
        return Err(ZeroDivision);
      }
      var p := i as real;
      SolvedPairRoundTrips(p, z);
      pairs := pairs + [PnPair(p, (p + 1.0) / z - p - 2.0)];
    }
    r := Ok(pairs);
  }

  /** Interaction counts with one provider. */
  datatype Counts = Counts(positive: nat, negative: nat)

  /** The pairs `get_random_pn_pair` draws from. */
  const PairCount: nat := 100

  /** No entry of s between j and end (exclusive) repeats s[j]. */
  predicate LastOccurrence<T(==)>(s: seq<T>, j: nat, end: nat)
    requires j < end <= |s|
  {
    forall k :: j < k < end ==> s[k] != s[j]
  }

  class RandomWitness {
    const base: Witness
    const allPositive: bool
    const allNegative: bool
    const partiallyRandom: bool
    const thresholdScore: real
    /** `self.providers`: whether a provider gets random opinions. */
    var flagged: map<Provider, bool>
    var interactions: map<Provider, Counts>

    /** The random witness never fills its inherited cache itself, so every
        cached score is the 0 `score_of` inserts. */
    ghost predicate Valid()
      reads this, base
    {
      forall q :: q in base.scores ==> base.scores[q] == 0.0
    }

    /** The constructor, without the `starts_lying` keyword the inherited
        constructor does not accept. */
    constructor (id: nat, bonus: real, honesty: real, honestyStep: real, ballotStuffing: bool,
                 lyingMode: LyingMode, badMouthing: bool, allPositive: bool, allNegative: bool,
                 partiallyRandom: bool, thresholdScore: real)
      ensures Valid()
      ensures fresh(base) && fresh(base.agent) && fresh(base.agent.ring)
      ensures base.conduct == Conduct(bonus, lyingMode, ballotStuffing, badMouthing)
      ensures base.honesty == honesty && base.epoch == 0 && base.scores == map[]
      ensures this.allPositive == allPositive && this.allNegative == allNegative
      ensures this.partiallyRandom == partiallyRandom && this.thresholdScore == thresholdScore
      ensures flagged == map[] && interactions == map[]
    {
      base := new Witness(id, bonus, honesty, honestyStep, ballotStuffing, lyingMode, badMouthing, false, 0);
      this.allPositive := allPositive;
      this.allNegative := allNegative;
      this.partiallyRandom := partiallyRandom;
      this.thresholdScore := thresholdScore;
      flagged := map[];
      interactions := map[];
    }

    /** `score_of`. The inherited `score_of` runs first for its cache insert
        (its result is dropped); `honestyDraw` is its draw, `z` the
        `uniform(0, 1)` draw and `pick` the index `choice` takes. */
    method ScoreOf(p: Provider, honestyDraw: real, z: real, pick: nat) returns (r: Result<Option<real>>)
      requires Valid()
      modifies base`scores
      ensures Valid()
      ensures base.scores == if p in old(base.scores) then old(base.scores) else old(base.scores)[p := 0.0]
      ensures partiallyRandom && p !in flagged ==> r == Err(KeyError)
      ensures partiallyRandom && p in flagged && flagged[p] ==> r == if z == 0.0 then Err(ZeroDivision) else Ok(Some(z))
      ensures partiallyRandom && p in flagged && !flagged[p] ==> r == Ok(Some(0.0))
      ensures !partiallyRandom && (allPositive || allNegative) ==>
        if p !in interactions then r == Err(KeyError)
        else
          var total := (interactions[p].positive + interactions[p].negative) as real;
          r.Ok? && r.value.Some? &&
          (allPositive ==> r == Ok(Some(Brs(total, 0.0).value)) && r.value.value >= 0.5) &&
          (!allPositive ==> r == Ok(Some(Brs(0.0, total).value)) && r.value.value <= 0.5)
      ensures !partiallyRandom && !allPositive && !allNegative ==> r == Ok(None)
    {
      var _ := base.ScoreOf(p, honestyDraw);
      if partiallyRandom {
        if p !in flagged {
          return Err(KeyError);
        }
        if flagged[p] {
          var pairs := GetPnPairs(z, PairCount);
          if pairs.Err? {
            return Err(pairs.error);
          }
          var pair := pairs.value[pick % PairCount];
          var v := Brs(pair.p, pair.n);
          return Ok(Some(v.value));
        } else {
          return Ok(Some(base.scores[p]));
        }
      } else if allPositive || allNegative {
        if p !in interactions {
          return Err(KeyError);
        }
        var total := (interactions[p].positive + interactions[p].negative) as real;
        BrsOneSided(total);
        if allPositive {
          return Ok(Some(Brs(total, 0.0).value));
        } else {
          return Ok(Some(Brs(0.0, total).value));
        }
      }
      return Ok(None);
    }

    /** `update`: only the epoch counter moves; no honesty schedule. */
    method Update()
      modifies base`epoch
      ensures base.epoch == old(base.epoch) + 1
    {
      base.epoch := base.epoch + 1;
    }

    /** `register_providers`, with `flip(i)` the `random()` drawn for the
        i-th provider in partially random mode. Every given provider gets
        zero counts and a flag (the last draw wins for a repeated provider);
        every other provider keeps its entries. */
    method RegisterProviders(ps: seq<Provider>, flip: nat -> real)
      modifies this`flagged, this`interactions
      ensures forall q :: q in interactions <==> q in old(interactions) || q in ps
      ensures forall q :: q in flagged <==> q in old(flagged) || q in ps
      ensures forall q :: q in ps ==> interactions[q] == Counts(0, 0)
      ensures !partiallyRandom ==> forall q :: q in ps ==> flagged[q]
      ensures partiallyRandom ==> forall i :: 0 <= i < |ps| && LastOccurrence(ps, i, |ps|) ==> flagged[ps[i]] == (flip(i) > 0.5)
      ensures forall q :: q !in ps && q in old(flagged) ==> flagged[q] == old(flagged[q])
      ensures forall q :: q !in ps && q in old(interactions) ==> interactions[q] == old(interactions[q])
    {
      for i := 0 to |ps|
        invariant forall q :: q in interactions <==> q in old(interactions) || q in ps[..i]
        invariant forall q :: q in flagged <==> q in old(flagged) || q in ps[..i]
        invariant forall q :: q in ps[..i] ==> interactions[q] == Counts(0, 0)
        invariant !partiallyRandom ==> forall q :: q in ps[..i] ==> flagged[q]
        invariant partiallyRandom ==> forall j :: 0 <= j < i && LastOccurrence(ps, j, i) ==> flagged[ps[j]] == (flip(j) > 0.5)
        invariant forall q :: q !in ps[..i] && q in old(flagged) ==> flagged[q] == old(flagged[q])
        invariant forall q :: q !in ps[..i] && q in old(interactions) ==> interactions[q] == old(interactions[q])
      {
        assert ps[..i + 1] == ps[..i] + [ps[i]];
        flagged := flagged[ps[i] := if partiallyRandom then flip(i) > 0.5 else true];
        interactions := interactions[ps[i] := Counts(0, 0)];
      }
      assert ps[..|ps|] == ps;
    }

    /** `update_provider`: one more negative interaction when the score is
        under the threshold, one more positive otherwise; an unregistered
        provider raises KeyError. */
    method UpdateProvider(p: Provider, score: real) returns (r: Outcome)
      modifies this`interactions
      ensures p !in old(interactions) ==> r == Fail(KeyError) && interactions == old(interactions)
      ensures p in old(interactions) ==>
        && r == Pass
        && var c := old(interactions[p]);
           interactions == old(interactions)[p := if score < thresholdScore then Counts(c.positive, c.negative + 1)
                                                 else Counts(c.positive + 1, c.negative)]
    {
      if p !in interactions {
        return Fail(KeyError);
      }
      var c := interactions[p];
      if score < thresholdScore {
        interactions := interactions[p := Counts(c.positive, c.negative + 1)];
      } else {
        interactions := interactions[p := Counts(c.positive + 1, c.negative)];
      }
      r := Pass;
    }
  }
}
