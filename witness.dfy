/** A witness: an opinion source about providers. It caches one score per
    provider, may lie (distorting the cached score by its ring membership and
    lying mode) and reports the result clamped to [0, 1]. Once per epoch it
    may take one scheduled honesty step. */
module Witnesses {
  import opened Errors
  import opened Agents
  import opened Providers

  /** `min(1.0, max(0.0, x))`. */
  function Clamp01(x: real): (r: real)
    ensures 0.0 <= r <= 1.0
    ensures 0.0 <= x <= 1.0 ==> r == x
    ensures x < 0.0 ==> r == 0.0
    ensures x > 1.0 ==> r == 1.0
  {
    var atLeastZero := if x > 0.0 then x else 0.0;
    if atLeastZero < 1.0 then atLeastZero else 1.0
  }

  /** The parameters that decide how a witness lies; they never change. */
  datatype Conduct = Conduct(bonus: real, mode: LyingMode, ballotStuffing: bool, badMouthing: bool)

  /** The distorted score a dishonest witness reports, before clamping:
      Fixed mode overrides the score with `bonus` (in ring) or `1 - bonus`
      (out of ring); Bonus mode adds the bonus for an in-ring provider when
      ballot stuffing, subtracts it for an out-of-ring provider when bad
      mouthing, and otherwise adds it out of ring only when ballot stuffing
      with an empty ring. */
  function Distorted(cached: real, inRing: bool, ringEmpty: bool, c: Conduct): real
  {
    match (inRing, c.mode)
    case (true, Fixed) => c.bonus
    case (true, Bonus) => cached + (if c.ballotStuffing then c.bonus else 0.0)
    case (false, Fixed) => 1.0 - c.bonus
    case (false, Bonus) =>
      if c.badMouthing then cached - c.bonus
      else if c.ballotStuffing && ringEmpty then cached + c.bonus
      else cached
  }

  /** What `score_of` returns, given the cached score and the outcome of the
      honesty draw: always a value in [0, 1], and for an honest draw the
      clamped cached score whatever the ring and the mode. */
  function Opinion(cached: real, honest: bool, inRing: bool, ringEmpty: bool, c: Conduct): (r: real)
    ensures 0.0 <= r <= 1.0
    ensures honest ==> r == Clamp01(cached)
  {
    Clamp01(if honest then cached else Distorted(cached, inRing, ringEmpty, c))
  }

  /** The dishonest branches, case by case. */
  lemma DishonestOpinions(cached: real, inRing: bool, ringEmpty: bool, c: Conduct)
    ensures var r := Opinion(cached, false, inRing, ringEmpty, c);
      && (c.mode == Fixed && inRing ==> r == Clamp01(c.bonus))
      && (c.mode == Fixed && !inRing ==> r == Clamp01(1.0 - c.bonus))
      && (c.mode == Bonus && inRing ==>
            r == Clamp01(if c.ballotStuffing then cached + c.bonus else cached))
      && (c.mode == Bonus && !inRing && c.badMouthing ==> r == Clamp01(cached - c.bonus))
      && (c.mode == Bonus && !inRing && !c.badMouthing ==>
            r == Clamp01(if c.ballotStuffing && ringEmpty then cached + c.bonus else cached))
  {
  }

  /** `honest()`: the draw succeeds when it does not exceed the honesty. */
  predicate HonestDraw(honesty: real, draw: real)
  {
    honesty >= draw
  }

  /** `becomes_dishonest` sets the honesty to 0, yet a draw of exactly 0.0,
      which `random()` can return, still counts as honest: a Fixed-mode
      in-ring witness then reports its clamped cached score, not its bonus. */
  lemma ZeroHonestyHonestOnZeroDraw(cached: real, inRing: bool, ringEmpty: bool, c: Conduct)
    ensures HonestDraw(0.0, 0.0)
    ensures Opinion(cached, HonestDraw(0.0, 0.0), inRing, ringEmpty, c) == Clamp01(cached)
  {
  }

  /** The honesty and epoch counter that `update` advances. */
  datatype Schedule = Schedule(honesty: real, epoch: int)

  /** One `update`: add the honesty step when the schedule says so at this
      epoch, then count the epoch. */
  function Step(s: Schedule, changeHonesty: bool, epochsBeforeChange: int, honestyStep: real): (t: Schedule)
    ensures t.epoch == s.epoch + 1
  {
    Schedule(if changeHonesty && s.epoch == epochsBeforeChange then s.honesty + honestyStep else s.honesty,
             s.epoch + 1)
  }

  /** n successive updates. */
  function Steps(s: Schedule, n: nat, changeHonesty: bool, epochsBeforeChange: int, honestyStep: real): Schedule
  {
    if n == 0 then s else Step(Steps(s, n - 1, changeHonesty, epochsBeforeChange, honestyStep),
                               changeHonesty, epochsBeforeChange, honestyStep)
  }

  /** Over any number of updates the epoch advances by exactly that number and
      the honesty step is applied at most once: exactly when the scheduled
      epoch falls in the covered range and the schedule is switched on. */
  lemma {:induction false} HonestyStepAppliedAtMostOnce(s: Schedule, n: nat, changeHonesty: bool,
                                                          epochsBeforeChange: int, honestyStep: real)
    ensures var t := Steps(s, n, changeHonesty, epochsBeforeChange, honestyStep);
      && t.epoch == s.epoch + n
      && t.honesty == s.honesty +
           (if changeHonesty && s.epoch <= epochsBeforeChange < s.epoch + n then honestyStep else 0.0)
  {
    if n > 0 {
      HonestyStepAppliedAtMostOnce(s, n - 1, changeHonesty, epochsBeforeChange, honestyStep);
    }
  }

  /** The opinion every witness gives a provider it has just registered:
      the provider's expected utility. */
  function Prior(p: Provider): real
  {
    p.chance * p.quality - p.cost
  }

  class Witness {
    const agent: Agent
    const conduct: Conduct
    const changeHonesty: bool
    const epochsBeforeChange: int
    const honestyStep: real
    var honesty: real
    var epoch: int
    var scores: map<Provider, real>

    /** The constructor. The source never assigns `self.ring` here; the
        model gives the witness an empty ring of its own. */
    constructor (id: nat, bonus: real, honesty: real, honestyStep: real, ballotStuffing: bool,
                 lyingMode: LyingMode, badMouthing: bool, changeHonesty: bool, epochsBeforeDishonest: int)
      ensures agent.id == WitnessAgent(id) && fresh(agent) && fresh(agent.ring) && agent.ring.members == []
      ensures conduct == Conduct(bonus, lyingMode, ballotStuffing, badMouthing)
      ensures this.honesty == honesty && this.honestyStep == honestyStep
      ensures this.changeHonesty == changeHonesty && epochsBeforeChange == epochsBeforeDishonest
      ensures epoch == 0 && scores == map[]
    {
      agent := new Agent(WitnessAgent(id));
      conduct := Conduct(bonus, lyingMode, ballotStuffing, badMouthing);
      this.changeHonesty := changeHonesty;
      epochsBeforeChange := epochsBeforeDishonest;
      this.honestyStep := honestyStep;
      this.honesty := honesty;
      epoch := 0;
      scores := map[];
    }

    predicate InRing(p: Provider)
      reads agent, agent.ring
    {
      ProviderAgent(p.id) in agent.ring.members
    }

    /** `score_of(provider)` with `draw` the value `random()` returns inside
        `honest()`. An unseen provider is first cached with score 0. */
    method ScoreOf(p: Provider, draw: real) returns (r: real)
      modifies this`scores
      ensures scores == if p in old(scores) then old(scores) else old(scores)[p := 0.0]
      ensures r == Opinion(scores[p], HonestDraw(honesty, draw), InRing(p),
                           |agent.ring.members| == 0, conduct)
    {
      if p !in scores {
        scores := scores[p := 0.0];
      }
      var value := scores[p];
      var honest := honesty >= draw;
      if !honest {
        value := Distorted(value, InRing(p), |agent.ring.members| == 0, conduct);
      }
      r := Clamp01(value);
    }

    method BecomesDishonest()
      modifies this`honesty
      ensures honesty == 0.0
    {
      honesty := 0.0;
    }

    /** `update()`: one step of the honesty schedule. */
    method Update()
      modifies this`honesty, this`epoch
      ensures Schedule(honesty, epoch) ==
              Step(Schedule(old(honesty), old(epoch)), changeHonesty, epochsBeforeChange, honestyStep)
    {
      if changeHonesty && epoch == epochsBeforeChange {
        honesty := honesty + honestyStep;
      }
      epoch := epoch + 1;
    }

    /** `register_providers`: the cache is replaced by exactly the given
        providers, each at its expected utility. */
    method RegisterProviders(ps: seq<Provider>)
      modifies this`scores
      ensures forall p :: p in scores <==> p in ps
      ensures forall p :: p in scores ==> scores[p] == p.chance * p.quality - p.cost
    {
      scores := map p | p in ps :: Prior(p);
    }

    /** `choose_provider` hands `dict_keys` to `random.choice`: an empty
        cache raises IndexError and any other raises TypeError, since
        `dict_keys` cannot be indexed. */
    function ChooseProvider(): (r: Outcome)
      reads this
      ensures r.Fail?
      ensures r == Fail(if scores == map[] then IndexError else TypeError)
    {
      if |scores| == 0 then Fail(IndexError) else Fail(TypeError)
    }
  }
}
