/** A service provider: a success chance, the quality of a successful
    service and a cost charged either way. Its three parameters are fixed
    when it is built; a service call is one uniform draw against the chance. */
module Providers {
  import opened Errors

  /** `id` stands for the object's identity: two providers with equal
      parameters are still distinct dict keys in the testbed. */
  datatype Provider = Provider(id: nat, chance: real, quality: real, cost: real)

  /** The interval [lo, hi] a missing parameter is drawn from. */
  datatype Range = Range(lo: real, hi: real)

  const UnitRange := Range(0.0, 1.0)

  /** The Python truthiness of an optional float: None and 0.0 are falsy. */
  predicate Truthy(x: Option<real>)
  {
    x.Some? && x.value != 0.0
  }

  /** `x or lo + (hi - lo) * r`, where r is the draw `random()` takes only
      when x is falsy. */
  function OrSample(x: Option<real>, range: Range, r: real): (v: real)
    ensures Truthy(x) ==> v == x.value
    ensures !Truthy(x) && range.lo <= range.hi && 0.0 <= r < 1.0 ==> range.lo <= v <= range.hi
  {
    if Truthy(x) then x.value
    else
      var width := range.hi - range.lo;
      ScaledDrawWithin(width, r);
      range.lo + width * r
  }

  lemma ScaledDrawWithin(width: real, r: real)
    ensures 0.0 <= width && 0.0 <= r < 1.0 ==> 0.0 <= width * r <= width
  {
    if 0.0 <= width && 0.0 <= r < 1.0 {
      assert width * (1.0 - r) >= 0.0;
    }
  }

  /** The constructor: each parameter is kept when truthy and otherwise
      drawn from its range with the next draw. */
  function NewProvider(id: nat, chance: Option<real>, quality: Option<real>, cost: Option<real>,
                       chanceRange: Range, qualityRange: Range, costRange: Range,
                       rChance: real, rQuality: real, rCost: real): (p: Provider)
    ensures p.id == id
    ensures p.chance == OrSample(chance, chanceRange, rChance)
    ensures p.quality == OrSample(quality, qualityRange, rQuality)
    ensures p.cost == OrSample(cost, costRange, rCost)
  {
    Provider(id, OrSample(chance, chanceRange, rChance), OrSample(quality, qualityRange, rQuality),
             OrSample(cost, costRange, rCost))
  }

  /** An explicit `cost=0` is falsy, so it is replaced by a draw: with the
      default unit range and a positive draw the provider's cost is not 0. */
  lemma ExplicitZeroCostIsResampled(id: nat, rChance: real, rQuality: real, rCost: real)
    requires 0.0 < rCost < 1.0
    ensures var p := NewProvider(id, None, None, Some(0.0), UnitRange, UnitRange, UnitRange,
                                 rChance, rQuality, rCost);
      p.cost == rCost && p.cost != 0.0
  {
  }

  /** One service: `quality - cost` when the draw falls under the chance,
      otherwise `-cost`. Nothing else can come out, and the provider is a
      value, so no call changes its parameters. */
  function GetService(p: Provider, draw: real): (v: real)
    ensures v == p.quality - p.cost || v == -p.cost
    ensures p.chance > draw ==> v == p.quality - p.cost
    ensures p.chance <= draw ==> v == -p.cost
  {
    if p.chance > draw then p.quality - p.cost else -p.cost
  }

  /** A certain provider always succeeds, an impossible one always fails,
      for every draw `random()` can return. */
  lemma CertainAndImpossibleProviders(p: Provider, draw: real)
    requires 0.0 <= draw < 1.0
    ensures p.chance == 1.0 ==> GetService(p, draw) == p.quality - p.cost
    ensures p.chance == 0.0 ==> GetService(p, draw) == -p.cost
  {
  }
}
