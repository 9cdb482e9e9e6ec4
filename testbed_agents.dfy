/** The older agent revision of the testbed package: providers with a
    two-outcome service, witnesses whose lies are clamped with `max(1, ·)`,
    and a consumer that picks the provider its trust method scores highest.
    It shares the ring list and the agent identities with the latest
    revision but keeps its own lying modes, scores and choices. */
module TestbedAgents {
  import opened Errors
  import Agents
  import Arith
  import opened Collections

  /** A provider of this revision: a chance of serving and the quality of
      a successful service. Its `ring` is only declared, never assigned. */
  datatype Provider = Provider(id: nat, chance: real, quality: real)

  /** `LyingMode`, with the same two members as the latest revision. */
  datatype LyingMode = Fixed | Bonus

  /** `get_service` with `draw` the `random()` it compares against: the
      quality when the chance beats the draw, nothing otherwise. */
  function GetService(p: Provider, draw: real): (r: real)
    ensures r == p.quality || r == 0.0
    ensures r == p.quality <== p.chance > draw
    ensures p.quality != 0.0 ==> (r == p.quality <==> p.chance > draw)
  {
    if p.chance > draw then p.quality else 0.0
  }

  /** A provider that always beats the draw (chance above every draw in
      [0, 1)) always delivers its quality, and one with chance 0 never does. */
  lemma ServiceExtremes(p: Provider, draw: real)
    requires 0.0 <= draw < 1.0
    ensures p.chance >= 1.0 ==> GetService(p, draw) == p.quality
    ensures p.chance <= 0.0 && p.quality != 0.0 ==> GetService(p, draw) != p.quality
  {
  }

  /** The pure part of `score_of`: from the cached value `cached`, Fixed
      mode answers at once (bonus inside the ring, `1 - bonus` outside),
      while Bonus mode adds or subtracts the bonus for ballot stuffing or
      bad mouthing, clamps the result from below with `max(1, ·)` and then
      answers it, or `1 -` it when the honesty draw `draw` is not beaten. */
  function Opinion(cached: real, inRing: bool, mode: LyingMode, bonus: real, ballotStuffing: bool,
                   badMouthing: bool, honesty: real, draw: real): (r: real)
    ensures mode == Fixed ==> r == if inRing then bonus else 1.0 - bonus
    ensures mode == Bonus && honesty > draw ==> r >= 1.0
    ensures mode == Bonus && honesty <= draw ==> r <= 0.0
  {
    if mode == Fixed then (if inRing then bonus else 1.0 - bonus)
    else
      var shifted := if inRing then cached + (if ballotStuffing then bonus else 0.0)
                     else cached - (if badMouthing then bonus else 0.0);
      var clamped := Max1(shifted);
      if honesty > draw then clamped else 1.0 - clamped
  }

  /** Python's `max(1, x)`: 1 unless x is larger. */
  function Max1(x: real): (r: real)
    ensures r >= 1.0 && r >= x && (r == 1.0 || r == x)
  {
    if x > 1.0 then x else 1.0
  }

  /** In Bonus mode an opinion is never strictly between 0 and 1: the
      clamp pushes honest answers up to 1 and dishonest ones down to 0. */
  lemma BonusNeverInside(cached: real, inRing: bool, bonus: real, ballotStuffing: bool, badMouthing: bool,
                         honesty: real, draw: real)
    ensures var r := Opinion(cached, inRing, Bonus, bonus, ballotStuffing, badMouthing, honesty, draw);
      r >= 1.0 || r <= 0.0
  {
  }

  /** `calc_delta`: the squared change, zero when nothing changed and
      positive otherwise. */
  function CalcDelta(stored: real, score: real): (r: real)
    ensures r >= 0.0
    ensures score == stored ==> r == 0.0
    ensures score != stored ==> r > 0.0
  {
    var d := score - stored;
    var sq := d * d;
    if d == 0.0 then sq
    else
      Arith.SquarePositive(d, sq);
      sq
  }

  /** The value `score_of` reads: the cached one, or 0 for a provider it
      has not seen. */
  function Stored(scores: map<Provider, real>, p: Provider): real
  {
    if p in scores then scores[p] else 0.0
  }

  /** The cache after `score_of(p)`: 0 inserted for an unseen provider. */
  function Cache(scores: map<Provider, real>, p: Provider): (r: map<Provider, real>)
    ensures p in r && r[p] == Stored(scores, p)
    ensures forall q :: q != p ==> (q in r <==> q in scores)
    ensures forall q :: q in scores ==> q in r && r[q] == scores[q]
  {
    if p in scores then scores else scores[p := 0.0]
  }

  /** A second lookup changes nothing more and reads the same value. */
  lemma {:induction false} CacheIdempotent(scores: map<Provider, real>, p: Provider)
    ensures Cache(Cache(scores, p), p) == Cache(scores, p)
    ensures Stored(Cache(scores, p), p) == Stored(scores, p)
    ensures forall q :: Stored(Cache(scores, p), q) == Stored(scores, q)
  {
  }

  /** The cache after `score_of` of the first n providers of ps. */
  function CacheAll(scores: map<Provider, real>, ps: seq<Provider>, n: nat): map<Provider, real>
    requires n <= |ps|
  {
    if n == 0 then scores else Cache(CacheAll(scores, ps, n - 1), ps[n - 1])
  }

  /** Looking providers up never changes what is read for any provider, and
      only the providers looked up are added. */
  lemma {:induction false} CacheAllSpec(scores: map<Provider, real>, ps: seq<Provider>, n: nat)
    requires n <= |ps|
    ensures forall q :: Stored(CacheAll(scores, ps, n), q) == Stored(scores, q)
    ensures forall q :: q in CacheAll(scores, ps, n) ==> q in scores || q in ps[..n]
  {
    if n > 0 {
      CacheAllSpec(scores, ps, n - 1);
      assert ps[..n] == ps[..n - 1] + [ps[n - 1]];
    }
  }

  /** The agent base of this revision. The ring attribute is only declared
      on the class, so it is null until a subclass assigns it (as the
      witness constructor does). */
  class Agent {
    const id: Agents.AgentId
    var ring: Agents.Ring?

    constructor (id: Agents.AgentId, ring: Agents.Ring?)
      ensures this.id == id && this.ring == ring
    {
      this.id := id;
      this.ring := ring;
    }

    /** `remove_from_ring`: AttributeError without a ring, ValueError when
        the agent is not in its list, and otherwise the shared list loses
        the agent's first occurrence and the agent gets a fresh empty one. */
    method RemoveFromRing() returns (r: Outcome)
      modifies this, ring
      ensures old(ring) == null ==> r == Fail(AttributeError) && ring == null
      ensures old(ring) != null && old(id in ring.members) ==>
        && r == Pass
        && old(ring).members == Agents.RemoveFirst(old(ring.members), id)
        && fresh(ring) && ring.members == []
      ensures old(ring) != null && !old(id in ring.members) ==>
        r == Fail(ValueError) && ring == old(ring) && ring.members == old(ring.members)
    {
      if ring == null {
        return Fail(AttributeError);
      }
      if id in ring.members {
        ring.members := Agents.RemoveFirst(ring.members, id);
        ring := new Agents.Ring();
        r := Pass;
      } else {
        r := Fail(ValueError);
      }
    }
  }

  /** A witness of this revision. */
  class Witness {
    const agent: Agent
    const bonus: real
    const ballotStuffing: bool
    const lyingMode: LyingMode
    const badMouthing: bool
    const startsLying: bool
    const epochsBeforeDishonest: int
    var honesty: real
    var scores: map<Provider, real>

    ghost predicate Valid()
      reads this, agent
    {
      agent.ring != null
    }

    /** The constructor: an empty cache and an empty ring list of its own. */
    constructor (id: nat, bonus: real, honesty: real, ballotStuffing: bool, lyingMode: LyingMode,
                 badMouthing: bool, startsLying: bool, epochsBeforeDishonest: int)
      ensures Valid() && fresh(agent) && fresh(agent.ring) && agent.ring.members == []
      ensures agent.id == Agents.WitnessAgent(id) && scores == map[] && this.honesty == honesty
      ensures this.bonus == bonus && this.ballotStuffing == ballotStuffing && this.lyingMode == lyingMode
      ensures this.badMouthing == badMouthing && this.startsLying == startsLying
      ensures this.epochsBeforeDishonest == epochsBeforeDishonest
    {
      var ring := new Agents.Ring();
      agent := new Agent(Agents.WitnessAgent(id), ring);
      this.bonus := bonus;
      this.honesty := honesty;
      this.ballotStuffing := ballotStuffing;
      this.lyingMode := lyingMode;
      this.badMouthing := badMouthing;
      this.startsLying := startsLying;
      this.epochsBeforeDishonest := epochsBeforeDishonest;
      scores := map[];
    }

    /** `score_of` with the honesty draw `draw`: the cache insert, then the
        opinion of the cached value for p's ring membership. */
    method ScoreOf(p: Provider, draw: real) returns (r: real)
      requires Valid()
      modifies this`scores
      ensures scores == Cache(old(scores), p)
      ensures r == Opinion(Stored(old(scores), p), Agents.ProviderAgent(p.id) in agent.ring.members,
                           lyingMode, bonus, ballotStuffing, badMouthing, honesty, draw)
    {
      if p !in scores {
        scores := scores[p := 0.0];
      }
      var v := scores[p];
      var inRing := Agents.ProviderAgent(p.id) in agent.ring.members;
      if inRing {
        if lyingMode == Fixed {
          return bonus;
        }
        v := v + if ballotStuffing then bonus else 0.0;
      } else {
        if lyingMode == Fixed {
          return 1.0 - bonus;
        }
        v := v - if badMouthing then bonus else 0.0;
      }
      v := Max1(v);
      if honesty > draw {
        r := v;
      } else {
        r := 1.0 - v;
      }
    }

    /** `becomes_dishonest`. */
    method BecomesDishonest()
      modifies this`honesty
      ensures honesty == 0.0
    {
      honesty := 0.0;
    }

    /** `update(epoch)`: the one scheduled switch to dishonesty. */
    method Update(epoch: int)
      modifies this`honesty
      ensures startsLying && epoch == epochsBeforeDishonest ==> honesty == 0.0
      ensures !(startsLying && epoch == epochsBeforeDishonest) ==> honesty == old(honesty)
    {
      if startsLying && epoch == epochsBeforeDishonest {
        BecomesDishonest();
      }
    }
  }

  /** Once the switch has happened, a Bonus-mode witness never beats a
      draw in [0, 1) again, so every later opinion is at most 0. */
  method LiesAfterSwitch(w: Witness, p: Provider, draw: real) returns (r: real)
    requires w.Valid() && w.lyingMode == Bonus && w.startsLying && 0.0 <= draw
    modifies w`honesty, w`scores
    ensures r <= 0.0
  {
    w.Update(w.epochsBeforeDishonest);
    r := w.ScoreOf(p, draw);
  }

  /** `NovelTrustComputingMethod.calc` raises ToDoException. */
  function BaseCalc(score: real, testimonies: ODict<nat, real>): (r: Result<real>)
    ensures r == Err(ToDo)
  {
    Err(ToDo)
  }

  /** The testimonies collected for p: `testimonies[w] = w.score_of(p)`
      for the first n witnesses of ws, in that order. */
  function TestimoniesUpTo(ws: seq<nat>, opinion: (nat, Provider) -> real, p: Provider, n: nat)
    : ODict<nat, real>
    requires n <= |ws|
  {
    if n == 0 then EmptyDict()
    else Put(TestimoniesUpTo(ws, opinion, p, n - 1), ws[n - 1], opinion(ws[n - 1], p))
  }

  function Testimonies(ws: seq<nat>, opinion: (nat, Provider) -> real, p: Provider): ODict<nat, real>
  {
    TestimoniesUpTo(ws, opinion, p, |ws|)
  }

  /** The testimony dict holds one entry per distinct witness, each
      witness's opinion of p. */
  lemma {:induction false} TestimoniesSpec(ws: seq<nat>, opinion: (nat, Provider) -> real, p: Provider, n: nat)
    requires n <= |ws|
    ensures var t := TestimoniesUpTo(ws, opinion, p, n);
      && ValidDict(t)
      && (forall w :: w in t.values <==> w in ws[..n])
      && (forall w :: w in t.values ==> t.values[w] == opinion(w, p))
  {
    if n > 0 {
      TestimoniesSpec(ws, opinion, p, n - 1);
      assert ws[..n] == ws[..n - 1] + [ws[n - 1]];
    }
  }

  /** The trust method's score of each provider, from the value the cache
      holds for it (0 if unseen) and the testimonies about it. */
  function NtcmScores(scores: map<Provider, real>, ps: seq<Provider>, ws: seq<nat>,
                      opinion: (nat, Provider) -> real, ntcm: (real, ODict<nat, real>) -> Result<real>)
    : (r: seq<Result<real>>)
    ensures |r| == |ps|
    ensures forall i :: 0 <= i < |ps| ==> r[i] == ntcm(Stored(scores, ps[i]), Testimonies(ws, opinion, ps[i]))
  {
    seq(|ps|, i requires 0 <= i < |ps| => ntcm(Stored(scores, ps[i]), Testimonies(ws, opinion, ps[i])))
  }

  /** The scan of `choose_provider` over the first n scores: the position
      of the best so far (a later score replaces it only when strictly
      greater), or the first failing score. */
  function ArgMax(vals: seq<Result<real>>, n: nat): (r: Result<nat>)
    requires 1 <= n <= |vals|
    ensures r.Ok? ==> r.value < n && vals[r.value].Ok?
  {
    if n == 1 then (if vals[0].Err? then Err(vals[0].error) else Ok(0))
    else
      var prev := ArgMax(vals, n - 1);
      if prev.Err? then prev
      else if vals[n - 1].Err? then Err(vals[n - 1].error)
      else if vals[n - 1].value > vals[prev.value].value then Ok(n - 1)
      else prev
  }

  /** The scan finds the earliest maximal score when every score is
      defined, and otherwise fails with the first failing score's error. */
  lemma {:induction false} ArgMaxSpec(vals: seq<Result<real>>, n: nat)
    requires 1 <= n <= |vals|
    ensures var r := ArgMax(vals, n);
      && (r.Ok? <==> forall j :: 0 <= j < n ==> vals[j].Ok?)
      && (r.Ok? ==> forall j :: 0 <= j < n ==> vals[j].value <= vals[r.value].value)
      && (r.Ok? ==> forall j :: 0 <= j < r.value ==> vals[j].value < vals[r.value].value)
      && (r.Err? ==> exists j :: 0 <= j < n && vals[j] == Err(r.error) && forall k :: 0 <= k < j ==> vals[k].Ok?)
  {
    if n > 1 {
      ArgMaxSpec(vals, n - 1);
      var prev := ArgMax(vals, n - 1);
      if prev.Ok? && vals[n - 1].Ok? && vals[n - 1].value > vals[prev.value].value {
        assert forall j :: 0 <= j < n - 1 ==> vals[j].value < vals[n - 1].value;
      }
    }
  }

  /** A failed scan stays failed with the same error. */
  lemma {:induction false} ArgMaxKeepError(vals: seq<Result<real>>, i: nat, n: nat)
    requires 1 <= i <= n <= |vals| && ArgMax(vals, i).Err?
    ensures ArgMax(vals, n) == ArgMax(vals, i)
  {
    if i < n {
      ArgMaxKeepError(vals, i, n - 1);
    }
  }

  /** A consumer of this revision. The trust method is the parameter
      `ntcm` of `choose_provider`. */
  class Consumer {
    var scores: map<Provider, real>

    constructor ()
      ensures scores == map[]
    {
      scores := map[];
    }

    /** `score_of`: an unseen provider is cached at 0 first. */
    method ScoreOf(p: Provider) returns (r: real)
      modifies this`scores
      ensures scores == Cache(old(scores), p)
      ensures r == Stored(old(scores), p)
    {
      if p !in scores {
        scores := scores[p := 0.0];
      }
      r := scores[p];
    }

    /** `update_provider`, with `e` the value of `exp(-x)` for the grown
        score x. As written the update is `x / 1 + exp(-x)`, that is
        `x + exp(-x)`; an unseen provider raises KeyError. */
    method UpdateProvider(p: Provider, score: real, e: real) returns (r: Outcome)
      modifies this`scores
      ensures p !in old(scores) ==> r == Fail(KeyError) && scores == old(scores)
      ensures p in old(scores) ==>
        && r == Pass
        && scores == old(scores)[p := old(scores[p]) + CalcDelta(old(scores[p]), score) + e]
      ensures p in old(scores) && e > 0.0 ==> scores[p] > old(scores[p])
    {
      if p !in scores {
        return Fail(KeyError);
      }
      var stored := scores[p];
      var delta := CalcDelta(stored, score);
      scores := scores[p := scores[p] + delta];
      scores := scores[p := scores[p] / 1.0 + e];
      r := Pass;
    }

    /** `choose_provider` over the given providers, with `opinion(w, p)`
        witness w's answer about p and `ntcm` the trust method. No
        providers raise ToDoException; otherwise the result is the earliest
        provider of strictly greatest score, or the first error of the trust
        method. Every provider looked at is cached. */
    method ChooseProvider(ps: seq<Provider>, ws: seq<nat>, opinion: (nat, Provider) -> real,
                          ntcm: (real, ODict<nat, real>) -> Result<real>)
      returns (r: Result<Provider>)
      modifies this`scores
      ensures ps == [] ==> r == Err(ToDo) && scores == old(scores)
      ensures ps != [] ==>
        var best := ArgMax(NtcmScores(old(scores), ps, ws, opinion, ntcm), |ps|);
        r == if best.Ok? then Ok(ps[best.value]) else Err(best.error)
      ensures forall q :: Stored(scores, q) == Stored(old(scores), q)
      ensures forall q :: q in scores ==> q in old(scores) || q in ps
    {
      if |ps| == 0 {
        return Err(ToDo);
      }
      ghost var vals := NtcmScores(old(scores), ps, ws, opinion, ntcm);
      var best := 0;
      var bestScore: real := 0.0;
      for i := 0 to |ps|
        invariant scores == CacheAll(old(scores), ps, i)
        invariant i > 0 ==> ArgMax(vals, i) == Ok(best) && vals[best] == Ok(bestScore)
      {
        var p := ps[i];
        CacheAllSpec(old(scores), ps, i);
        var score := ScoreOf(p);
        var testimonies := Testimonies(ws, opinion, p);
        var c := ntcm(score, testimonies);
        assert c == vals[i];
        if c.Err? {
          ArgMaxKeepError(vals, i + 1, |ps|);
          CacheAllSpec(old(scores), ps, i + 1);
          return Err(c.error);
        }
        if i == 0 || c.value > bestScore {
          best := i;
          bestScore := c.value;
        }
      }
      CacheAllSpec(old(scores), ps, |ps|);
      r := Ok(ps[best]);
    }
  }
}
