/** ACT: a consumer that blends direct trust (a beta estimate over its own
    interactions) with indirect trust (witness opinions weighted by a softmax
    over learned parameters), explores unknown providers with a decaying
    probability, and records outcome and decision histories per provider. */
module Acts {
  import opened Errors
  import opened Arith
  import opened Collections
  import opened Providers
  import opened Consumers

  /** `_alpha[p]` and `_beta[p]`: successful and unsuccessful interactions. */
  datatype BetaCounts = BetaCounts(alpha: nat, beta: nat)

  /** `_N(p)`: the number of interactions. */
  function Interactions(c: BetaCounts): nat
  {
    c.alpha + c.beta
  }

  /** The counter update of `update_provider`: a success adds to `_alpha`
      and a failure to `_beta`, so one more interaction is counted. */
  function Tally(c: BetaCounts, success: bool): (r: BetaCounts)
    ensures Interactions(r) == Interactions(c) + 1
    ensures r.alpha >= c.alpha && r.beta >= c.beta
  {
    if success then BetaCounts(c.alpha + 1, c.beta) else BetaCounts(c.alpha, c.beta + 1)
  }

  /** One step `t` of the histories `_O[p][t]` (outcome) and `_D[p][t]`
      (decision); the two lists are always appended together. */
  datatype Round = Round(outcome: bool, decision: bool)

  /** `_direct_trust`: `(alpha + 1) / (alpha + beta + 2)`, a probability
      strictly between 0 and 1 that one more success can only raise. */
  function DirectTrust(c: BetaCounts): (r: real)
    ensures 0.0 < r < 1.0
  {
    QuotientBounds(c.alpha as real + 1.0, c.alpha as real + c.beta as real + 2.0);
    (c.alpha as real + 1.0) / (c.alpha as real + c.beta as real + 2.0)
  }

  /** A success raises the direct trust and a failure lowers it. */
  lemma {:induction false} DirectTrustMonotone(c: BetaCounts)
    ensures DirectTrust(BetaCounts(c.alpha + 1, c.beta)) > DirectTrust(c)
    ensures DirectTrust(BetaCounts(c.alpha, c.beta + 1)) < DirectTrust(c)
  {
    var a := c.alpha as real + 1.0;
    var d := c.alpha as real + c.beta as real + 2.0;
    var up := (a + 1.0) / (d + 1.0);
    var down := a / (d + 1.0);
    var now := a / d;
    assert now * d == a;
    assert up * (d + 1.0) == a + 1.0;
    assert down * (d + 1.0) == a;
    assert up > now by {
      assert (a + 1.0) * d > a * (d + 1.0);
      assert up * (d + 1.0) * d > now * d * (d + 1.0);
    }
    assert down < now by {
      assert a * d < a * (d + 1.0);
      assert down * (d + 1.0) * d < now * d * (d + 1.0);
    }
  }

  /** `2 * epsilon**2`. */
  function Spread(epsilon: real): real
  {
    2.0 * (epsilon * epsilon)
  }

  /** The spread is positive for every non-zero epsilon. */
  lemma SpreadPositive(epsilon: real)
    requires epsilon != 0.0
    ensures Spread(epsilon) > 0.0
  {
    TwiceSquarePositive(epsilon, Spread(epsilon));
  }

  lemma TwiceSquarePositive(x: real, y: real)
    requires x != 0.0 && y == 2.0 * (x * x)
    ensures y > 0.0
  {
    SquarePositive(x, x * x);
  }

  /** `_N_min` as written: `1 / (2 * epsilon**2) * log((1 - theta) / 2)`,
      where `logTerm` is the value of that logarithm. A zero epsilon raises
      ZeroDivisionError before the logarithm is taken; a non-positive
      argument raises ValueError. */
  function NMinAsWritten(epsilon: real, smallTheta: real, logTerm: real): (r: Result<real>)
    ensures epsilon == 0.0 <==> r == Err(ZeroDivision)
    ensures epsilon != 0.0 && smallTheta >= 1.0 <==> r == Err(ValueError)
  {
    if epsilon == 0.0 then Err(ZeroDivision)
    else if (1.0 - smallTheta) / 2.0 <= 0.0 then Err(ValueError)
    else SpreadPositive(epsilon); Ok(1.0 / Spread(epsilon) * logTerm)
  }

  /** The bound of the method, `Nmin = -(1 / (2 epsilon^2)) ln((1 - theta) / 2)`:
      the same computation with the sign the formula has. */
  function NMin(epsilon: real, smallTheta: real, logTerm: real): (r: Result<real>)
    ensures epsilon == 0.0 <==> r == Err(ZeroDivision)
    ensures epsilon != 0.0 && smallTheta >= 1.0 <==> r == Err(ValueError)
    ensures r.Ok? <==> NMinAsWritten(epsilon, smallTheta, logTerm).Ok?
    ensures r.Ok? ==> r.value == -NMinAsWritten(epsilon, smallTheta, logTerm).value
  {
    if epsilon == 0.0 then Err(ZeroDivision)
    else if (1.0 - smallTheta) / 2.0 <= 0.0 then Err(ValueError)
    else SpreadPositive(epsilon); Ok(-(1.0 / Spread(epsilon)) * logTerm)
  }

  /** For a confidence level in (-1, 1) the argument `(1 - theta) / 2` lies in
      (0, 1), so its logarithm is negative: the bound as written is then
      negative and the documented bound positive. */
  lemma NMinSigns(epsilon: real, smallTheta: real, logTerm: real)
    requires epsilon != 0.0 && -1.0 < smallTheta < 1.0 && logTerm < 0.0
    ensures NMinAsWritten(epsilon, smallTheta, logTerm).Ok? && NMinAsWritten(epsilon, smallTheta, logTerm).value < 0.0
    ensures NMin(epsilon, smallTheta, logTerm).Ok? && NMin(epsilon, smallTheta, logTerm).value > 0.0
  {
    SpreadPositive(epsilon);
    Reciprocal(Spread(epsilon));
    MulSigns(1.0 / Spread(epsilon), logTerm);
  }

  /** `_gamma`: the weight of direct trust, `N / Nmin` while fewer than
      `Nmin` interactions were seen and 1 after. */
  function Gamma(n: nat, nMin: real): real
  {
    if (n as real) < nMin then (n as real) / nMin else 1.0
  }

  /** With a non-positive bound (which the bound as written always is) no
      count is below it, so direct trust alone decides from the first
      interaction on. */
  lemma GammaIsOneForNonPositiveBound(n: nat, nMin: real)
    requires nMin <= 0.0
    ensures Gamma(n, nMin) == 1.0
  {
  }

  /** With a positive bound the weight is in [0, 1], grows with experience,
      and reaches 1 exactly when the count reaches the bound. */
  lemma GammaWeighsExperience(n: nat, nMin: real)
    requires nMin > 0.0
    ensures 0.0 <= Gamma(n, nMin) <= 1.0
    ensures Gamma(n, nMin) == 1.0 <==> n as real >= nMin
    ensures Gamma(n, nMin) <= Gamma(n + 1, nMin)
  {
    var q := (n as real) / nMin;
    assert q * nMin == n as real;
    if (n as real) < nMin {
      assert q < 1.0;
      if (n as real) + 1.0 < nMin {
        var q1 := (n as real + 1.0) / nMin;
        assert q1 * nMin == n as real + 1.0;
        assert (q1 - q) * nMin == 1.0;
      }
    }
  }

  /** `_u(p, t)`: 1 when the consumer decided to interact at t and the
      outcome was good, else 0; a step past the history raises IndexError. */
  function Utility(rounds: seq<Round>, t: nat): (r: Result<real>)
    ensures t >= |rounds| <==> r == Err(IndexError)
    ensures r.Ok? ==> (r.value == 1.0 <==> rounds[t].outcome && rounds[t].decision)
    ensures r.Ok? ==> r.value == 0.0 || r.value == 1.0
  {
    if t >= |rounds| then Err(IndexError)
    else if !rounds[t].outcome && rounds[t].decision then Ok(0.0)
    else if rounds[t].outcome && rounds[t].decision then Ok(1.0)
    else Ok(0.0)
  }

  /** `_r(p)` at a given step: `u * (G - cost) - (1 - u) * cost`. */
  function Reward(u: real, gain: real, cost: real): real
  {
    u * (gain - cost) - (1.0 - u) * cost
  }

  /** The reward of a step is the net gain `G - cost` after a chosen,
      successful interaction and the bare loss `-cost` otherwise. */
  lemma RewardOfRound(rounds: seq<Round>, t: nat, gain: real, cost: real)
    requires t < |rounds|
    ensures Reward(Utility(rounds, t).value, gain, cost)
            == if rounds[t].outcome && rounds[t].decision then gain - cost else -cost
  {
  }

  /** `_d(w, p, t)`: the witness recommended p at t. */
  predicate Recommended(tests: seq<real>, t: nat, th: real)
    requires t < |tests|
  {
    tests[t] >= th
  }

  /** The first n steps at which a recommendation met a bad outcome. */
  function Misleading(tests: seq<real>, rounds: seq<Round>, th: real, n: nat): (r: nat)
    requires n <= |tests| && n <= |rounds|
    ensures r <= n
  {
    if n == 0 then 0
    else Misleading(tests, rounds, th, n - 1) + (if Recommended(tests, n - 1, th) && !rounds[n - 1].outcome then 1 else 0)
  }

  /** `_theta(w, p)`: the share of the witness's testimonies that
      recommended p when the interaction then failed. No testimony raises
      ZeroDivisionError; a history shorter than the testimonies IndexError. */
  function Theta(tests: seq<real>, rounds: seq<Round>, th: real): (r: Result<real>)
    ensures |tests| == 0 <==> r == Err(ZeroDivision)
    ensures |tests| > 0 && |rounds| < |tests| <==> r == Err(IndexError)
  {
    if |tests| == 0 then Err(ZeroDivision)
    else if |rounds| < |tests| then Err(IndexError)
    else Ok((1.0 / |tests| as real) * Misleading(tests, rounds, th, |tests|) as real)
  }

  /** The collusion penalty is a proportion. */
  lemma ThetaIsProportion(tests: seq<real>, rounds: seq<Round>, th: real)
    requires Theta(tests, rounds, th).Ok?
    ensures 0.0 <= Theta(tests, rounds, th).value <= 1.0
  {
    var n := |tests| as real;
    var m := Misleading(tests, rounds, th, |tests|) as real;
    assert 0.0 <= m <= n;
    var inv := 1.0 / n;
    assert inv * n == 1.0;
    assert inv * m <= inv * n;
  }

  /** `max(pr_min, pr - 0.2)`: one epoch's decay of the exploration
      probability. */
  function Decay(pr: real, prMin: real): real
  {
    if prMin >= pr - 0.2 then prMin else pr - 0.2
  }

  function Decays(pr: real, prMin: real, n: nat): real
  {
    if n == 0 then pr else Decay(Decays(pr, prMin, n - 1), prMin)
  }

  /** After n epochs the exploration probability has fallen by 0.2 per
      epoch, but never below `pr_min` (when it starts at or above it). */
  lemma {:induction false} DecaysToFloor(pr: real, prMin: real, n: nat)
    requires prMin <= pr
    ensures var v := Decays(pr, prMin, n);
      v == if prMin >= pr - 0.2 * n as real then prMin else pr - 0.2 * n as real
  {
    if n > 0 {
      DecaysToFloor(pr, prMin, n - 1);
    }
  }

  /** A stable filter of the registered providers by whether they have any
      interaction yet. */
  function ByExperience(keys: seq<Provider>, counts: map<Provider, BetaCounts>, known: bool): seq<Provider>
    requires forall i :: 0 <= i < |keys| ==> keys[i] in counts
  {
    if keys == [] then []
    else
      var rest := ByExperience(keys[..|keys| - 1], counts, known);
      var last := keys[|keys| - 1];
      if (Interactions(counts[last]) != 0) == known then rest + [last] else rest
  }

  predicate Counted(keys: seq<Provider>, counts: map<Provider, BetaCounts>)
  {
    forall i :: 0 <= i < |keys| ==> keys[i] in counts
  }

  /** `_unknown_providers()`: registered providers without interactions; a
      provider missing from the counters raises KeyError. */
  function UnknownProviders(keys: seq<Provider>, counts: map<Provider, BetaCounts>): (r: Result<seq<Provider>>)
    ensures !Counted(keys, counts) <==> r == Err(KeyError)
  {
    if Counted(keys, counts) then Ok(ByExperience(keys, counts, false)) else Err(KeyError)
  }

  /** `_known_providers()`: registered providers with interactions. */
  function KnownProviders(keys: seq<Provider>, counts: map<Provider, BetaCounts>): (r: Result<seq<Provider>>)
    ensures !Counted(keys, counts) <==> r == Err(KeyError)
  {
    if Counted(keys, counts) then Ok(ByExperience(keys, counts, true)) else Err(KeyError)
  }

  /** Known and unknown providers split the registration: together they are
      a permutation of it, the known ones all have interactions and the
      unknown ones none. */
  lemma {:induction false} ProvidersPartition(keys: seq<Provider>, counts: map<Provider, BetaCounts>)
    requires Counted(keys, counts)
    ensures var known := KnownProviders(keys, counts).value;
            var unknown := UnknownProviders(keys, counts).value;
      && multiset(known) + multiset(unknown) == multiset(keys)
      && (forall q :: q in known ==> q in counts && Interactions(counts[q]) != 0)
      && (forall q :: q in unknown ==> q in counts && Interactions(counts[q]) == 0)
  {
    PartitionOf(keys, counts);
  }

  lemma {:induction false} PartitionOf(keys: seq<Provider>, counts: map<Provider, BetaCounts>)
    requires Counted(keys, counts)
    ensures var known := ByExperience(keys, counts, true);
            var unknown := ByExperience(keys, counts, false);
      && multiset(known) + multiset(unknown) == multiset(keys)
      && (forall q :: q in known ==> q in counts && Interactions(counts[q]) != 0)
      && (forall q :: q in unknown ==> q in counts && Interactions(counts[q]) == 0)
  {
    if keys != [] {
      var init := keys[..|keys| - 1];
      PartitionOf(init, counts);
      assert keys == init + [keys[|keys| - 1]];
    }
  }

  /** Filtering distinct providers keeps them distinct and within the
      registration. */
  lemma {:induction false} ByExperienceDistinct(keys: seq<Provider>, counts: map<Provider, BetaCounts>, known: bool)
    requires Counted(keys, counts) && Distinct(keys)
    ensures Distinct(ByExperience(keys, counts, known))
    ensures forall q :: q in ByExperience(keys, counts, known) ==> q in keys
  {
    if keys != [] {
      var init := keys[..|keys| - 1];
      var last := keys[|keys| - 1];
      assert Distinct(init);
      ByExperienceDistinct(init, counts, known);
      assert keys == init + [last];
      assert last !in init;
    }
  }

  /** A witness with its current weight; a None weight is read as 0 and only
      survives selection when it is the only witness (no comparison runs). */
  datatype Weighted = Weighted(id: nat, weight: real)

  function Weights(items: seq<Weighted>): (ws: seq<real>)
    ensures |ws| == |items| && forall i :: 0 <= i < |items| ==> ws[i] == items[i].weight
  {
    seq(|items|, i requires 0 <= i < |items| => items[i].weight)
  }

  /** The length of `xs[:m]` for a list of length n. */
  function SliceLength(n: nat, m: int): (r: nat)
    ensures r <= n
    ensures m >= 0 ==> r == if m < n then m else n
    ensures m < 0 ==> r == if n + m > 0 then n + m else 0
  {
    if m >= 0 then (if m < n then m else n)
    else if n + m > 0 then n + m else 0
  }

  /** The first `count` items of a stable descending sort, taken one at a
      time as the earliest heaviest remaining item. */
  function SelectTop(items: seq<Weighted>, count: nat): seq<Weighted>
    decreases count
  {
    if count == 0 || items == [] then []
    else
      var i := FirstMaxIndex(Weights(items));
      [items[i]] + SelectTop(items[..i] + items[i + 1..], count - 1)
  }

  /** The selection has the requested size, capped by the supply. */
  lemma {:induction false} SelectTopSize(items: seq<Weighted>, count: nat)
    ensures |SelectTop(items, count)| == if count < |items| then count else |items|
    decreases count
  {
    if count != 0 && items != [] {
      var i := FirstMaxIndex(Weights(items));
      var rest := items[..i] + items[i + 1..];
      assert |rest| == |items| - 1;
      SelectTopSize(rest, count - 1);
      assert SelectTop(items, count) == [items[i]] + SelectTop(rest, count - 1);
    }
  }

  /** Every item of sel is one of items. */
  ghost predicate Drawn(sel: seq<Weighted>, items: seq<Weighted>)
  {
    forall s :: s in sel ==> s in items
  }

  /** Every item of sel is at least as heavy as every item of items left
      out of sel. */
  ghost predicate Dominates(sel: seq<Weighted>, items: seq<Weighted>)
  {
    forall s, u :: s in sel && u in items && u !in sel ==> s.weight >= u.weight
  }

  /** The selection takes only given items, and every chosen item is at
      least as heavy as every item left out. */
  lemma {:induction false} SelectTopDominates(items: seq<Weighted>, count: nat)
    ensures Drawn(SelectTop(items, count), items)
    ensures Dominates(SelectTop(items, count), items)
    decreases count
  {
    if count != 0 && items != [] {
      var i := FirstMaxIndex(Weights(items));
      var rest := items[..i] + items[i + 1..];
      SelectTopDominates(rest, count - 1);
      HeaviestFirst(items, i, SelectTop(rest, count - 1), SelectTop(items, count));
    }
  }

  /** Selecting from distinct items picks no item twice. */
  lemma {:induction false} SelectTopDistinct(items: seq<Weighted>, count: nat)
    requires Distinct(items)
    ensures Distinct(SelectTop(items, count))
    decreases count
  {
    if count != 0 && items != [] {
      var i := FirstMaxIndex(Weights(items));
      var rest := items[..i] + items[i + 1..];
      assert Distinct(rest) by {
        forall a, b | 0 <= a < b < |rest| ensures rest[a] != rest[b] {
          var ia := if a < i then a else a + 1;
          var ib := if b < i then b else b + 1;
          assert rest[a] == items[ia] && rest[b] == items[ib];
        }
      }
      assert items[i] !in rest by {
        forall a | 0 <= a < |rest| ensures rest[a] != items[i] {
          assert rest[a] == items[if a < i then a else a + 1];
        }
      }
      var rec := SelectTop(rest, count - 1);
      SelectTopDistinct(rest, count - 1);
      SelectTopDominates(rest, count - 1);
      assert SelectTop(items, count) == [items[i]] + rec;
      assert items[i] !in rec;
    }
  }

  /** Putting the heaviest item in front of a dominant selection from the
      remaining items gives a dominant selection from all of them. */
  lemma HeaviestFirst(items: seq<Weighted>, i: nat, rec: seq<Weighted>, top: seq<Weighted>)
    requires items != [] && i == FirstMaxIndex(Weights(items))
    requires Drawn(rec, items[..i] + items[i + 1..])
    requires Dominates(rec, items[..i] + items[i + 1..])
    requires top == [items[i]] + rec
    ensures Drawn(top, items)
    ensures Dominates(top, items)
  {
    RemovedAt(items, i);
    HeadIsHeaviest(items);
    assert forall s :: s in top ==> s == items[i] || s in rec;
  }

  lemma HeadIsHeaviest(items: seq<Weighted>)
    requires items != []
    ensures forall u :: u in items ==> items[FirstMaxIndex(Weights(items))].weight >= u.weight
  {
    var ws := Weights(items);
    var i := FirstMaxIndex(ws);
    forall u | u in items ensures items[i].weight >= u.weight {
      var k :| 0 <= k < |items| && items[k] == u;
      assert ws[k] <= ws[i];
    }
  }

  /** Removing the item at i keeps exactly the other items. */
  lemma RemovedAt(items: seq<Weighted>, i: nat)
    requires i < |items|
    ensures forall s :: s in items[..i] + items[i + 1..] ==> s in items
    ensures forall u :: u in items && u != items[i] ==> u in items[..i] + items[i + 1..]
  {
    var rest := items[..i] + items[i + 1..];
    forall s | s in rest ensures s in items {
      var k :| 0 <= k < |rest| && rest[k] == s;
      if k < i { assert items[k] == s; } else { assert items[k + 1] == s; }
    }
    forall u | u in items && u != items[i] ensures u in rest {
      var k :| 0 <= k < |items| && items[k] == u;
      if k < i { assert rest[k] == u; } else { assert rest[k - 1] == u; }
    }
  }

  /** The witnesses of a registration dict with their weights. */
  function WeightedWitnesses(keys: seq<nat>, weights: map<nat, Option<real>>): (items: seq<Weighted>)
    requires forall i :: 0 <= i < |keys| ==> keys[i] in weights
    ensures |items| == |keys|
    ensures forall i :: 0 <= i < |keys| ==> items[i].id == keys[i]
  {
    seq(|keys|, i requires 0 <= i < |keys| =>
      Weighted(keys[i], if weights[keys[i]].Some? then weights[keys[i]].value else 0.0))
  }

  function Ids(items: seq<Weighted>): (ids: seq<nat>)
    ensures |ids| == |items| && forall i :: 0 <= i < |items| ==> ids[i] == items[i].id
  {
    seq(|items|, i requires 0 <= i < |items| => items[i].id)
  }

  /** `_top_witnesses`: the witnesses of the first `M` places of a stable
      descending sort by weight. Sorting two or more entries compares every
      one of them, and a None weight cannot be compared: TypeError. */
  function TopWitnesses(w: ODict<nat, Option<real>>, m: int): (r: Result<seq<nat>>)
    requires ValidDict(w)
    ensures r.Err? <==> |w.keys| >= 2 && exists i :: 0 <= i < |w.keys| && w.values[w.keys[i]].None?
    ensures r.Err? ==> r.error == TypeError
  {
    if |w.keys| >= 2 && exists i :: 0 <= i < |w.keys| && w.values[w.keys[i]].None? then Err(TypeError)
    else Ok(Ids(SelectTop(WeightedWitnesses(w.keys, w.values), SliceLength(|w.keys|, m))))
  }

  /** The top witnesses are `M` (or all) distinct registered witnesses, and
      none of them weighs less than a registered witness left out. */
  lemma TopWitnessesSpec(w: ODict<nat, Option<real>>, m: int)
    requires ValidDict(w) && TopWitnesses(w, m).Ok?
    ensures var items := WeightedWitnesses(w.keys, w.values);
            var top := SelectTop(items, SliceLength(|w.keys|, m));
      && TopWitnesses(w, m).value == Ids(top)
      && |top| == SliceLength(|w.keys|, m)
      && Distinct(Ids(top))
      && (forall s :: s in top ==> s in items && s.id in w.values)
      && (forall s, u :: s in top && u in items && u !in top ==> s.weight >= u.weight)
  {
    var items := WeightedWitnesses(w.keys, w.values);
    var count := SliceLength(|w.keys|, m);
    SelectTopSize(items, count);
    SelectTopDominates(items, count);
    WitnessesDistinct(w.keys, w.values);
    SelectTopDistinct(items, count);
    IdsDistinct(w.keys, w.values, SelectTop(items, count));
  }

  /** Distinct witnesses give distinct weighted entries, each registered. */
  lemma WitnessesDistinct(keys: seq<nat>, weights: map<nat, Option<real>>)
    requires forall i :: 0 <= i < |keys| ==> keys[i] in weights
    requires Distinct(keys)
    ensures Distinct(WeightedWitnesses(keys, weights))
    ensures forall s :: s in WeightedWitnesses(keys, weights) ==> s.id in weights
  {
    var items := WeightedWitnesses(keys, weights);
    forall a, b | 0 <= a < b < |items| ensures items[a] != items[b] {
      assert items[a].id == keys[a] && items[b].id == keys[b];
    }
    forall s | s in items ensures s.id in weights {
      var k :| 0 <= k < |items| && items[k] == s;
    }
  }

  /** Distinct entries drawn from distinct witnesses carry distinct ids. */
  lemma IdsDistinct(keys: seq<nat>, weights: map<nat, Option<real>>, top: seq<Weighted>)
    requires forall i :: 0 <= i < |keys| ==> keys[i] in weights
    requires Distinct(keys) && Distinct(top)
    requires forall s :: s in top ==> s in WeightedWitnesses(keys, weights)
    ensures Distinct(Ids(top))
  {
    var items := WeightedWitnesses(keys, weights);
    forall a, b | 0 <= a < b < |top| ensures top[a].id != top[b].id {
      assert top[a] in items && top[b] in items;
      var ka :| 0 <= ka < |items| && items[ka] == top[a];
      var kb :| 0 <= kb < |items| && items[kb] == top[b];
      assert items[ka].id == keys[ka] && items[kb].id == keys[kb];
    }
  }

  /** `_rep`: the gamma-weighted blend of direct and indirect trust. */
  function Reputation(gamma: real, direct: real, indirect: real): real
  {
    gamma * direct + (1.0 - gamma) * indirect
  }

  /** For a weight in [0, 1] the reputation lies between the two trusts. */
  lemma ReputationBetween(gamma: real, direct: real, indirect: real)
    requires 0.0 <= gamma <= 1.0
    ensures var r := Reputation(gamma, direct, indirect);
      (direct <= indirect ==> direct <= r <= indirect) && (indirect <= direct ==> indirect <= r <= direct)
  {
    var r := Reputation(gamma, direct, indirect);
    assert r - direct == (1.0 - gamma) * (indirect - direct);
    assert r - indirect == gamma * (direct - indirect);
    MulSigns(1.0 - gamma, indirect - direct);
    MulSigns(gamma, direct - indirect);
    MulSigns(1.0 - gamma, direct - indirect);
    MulSigns(gamma, indirect - direct);
  }

  /** `_pi(w, p)` for the learned parameters the model can reach: every
      parameter is still 0 (no `_update_p` ever completes), so each of the K
      witnesses gets `e**0 / (K * e**0) = 1 / K`. */
  function UniformWeight(k: nat): real
    requires k > 0
  {
    1.0 / k as real
  }

  /** `_indirect_trust` with uniform weights: `sum(pi * op) / sum(pi)` over
      the witnesses' opinions; with no witness it divides 0 by 0. */
  function IndirectTrust(opinions: seq<real>): (r: Result<real>)
    ensures |opinions| == 0 <==> r == Err(ZeroDivision)
  {
    if |opinions| == 0 then Err(ZeroDivision)
    else
      var k := |opinions|;
      var top := seq(k, i requires 0 <= i < k => UniformWeight(k) * opinions[i]);
      var bottom := seq(k, i requires 0 <= i < k => UniformWeight(k));
      SumConst(bottom, UniformWeight(k));
      Reciprocal(k as real);
      Ok(Sum(top) / Sum(bottom))
  }

  /** With uniform weights the indirect trust is the plain mean of the
      opinions. */
  lemma {:induction false} IndirectTrustIsMean(opinions: seq<real>)
    requires |opinions| > 0
    ensures IndirectTrust(opinions) == Ok(Sum(opinions) / |opinions| as real)
  {
    var k := |opinions|;
    var w := UniformWeight(k);
    var top := seq(k, i requires 0 <= i < k => w * opinions[i]);
    var bottom := seq(k, i requires 0 <= i < k => w);
    SumScale(opinions, w, top);
    SumConst(bottom, w);
    assert w * k as real == 1.0;
    assert Sum(top) / Sum(bottom) == w * Sum(opinions);
    assert w * Sum(opinions) == Sum(opinions) / k as real;
  }

  /** Opinions in [0, 1] give an indirect trust in [0, 1]. */
  lemma {:induction false} IndirectTrustInUnit(opinions: seq<real>)
    requires |opinions| > 0
    requires forall i :: 0 <= i < |opinions| ==> 0.0 <= opinions[i] <= 1.0
    ensures IndirectTrust(opinions).Ok? && 0.0 <= IndirectTrust(opinions).value <= 1.0
  {
    IndirectTrustIsMean(opinions);
    SumBounds(opinions, 0.0, 1.0);
    var k := |opinions| as real;
    assert 0.0 * k <= Sum(opinions) <= 1.0 * k;
    QuotientBetween(Sum(opinions), k, 0.0, 1.0);
  }

  /** The index of the earliest best-scored key. */
  function FirstBest<K>(keys: seq<K>, scores: map<K, real>): (b: nat)
    requires |keys| > 0 && forall i :: 0 <= i < |keys| ==> keys[i] in scores
    ensures b < |keys|
    ensures forall i :: 0 <= i < |keys| ==> scores[keys[i]] <= scores[keys[b]]
    ensures forall i :: 0 <= i < b ==> scores[keys[i]] < scores[keys[b]]
  {
    var scored := seq(|keys|, i requires 0 <= i < |keys| => scores[keys[i]]);
    var b := FirstMaxIndex(scored);
    assert forall i :: 0 <= i < |keys| ==> scored[i] == scores[keys[i]];
    b
  }

  /** With the documented (positive) bound and opinions in [0, 1] (which a
      witness's `score_of` always returns) every reputation is in [0, 1]. */
  lemma ReputationInUnitInterval(c: BetaCounts, nMin: real, opinions: seq<real>)
    requires nMin > 0.0 && |opinions| > 0
    requires forall i :: 0 <= i < |opinions| ==> 0.0 <= opinions[i] <= 1.0
    ensures var rep := Reputation(Gamma(Interactions(c), nMin), DirectTrust(c), IndirectTrust(opinions).value);
      0.0 <= rep <= 1.0
  {
    GammaWeighsExperience(Interactions(c), nMin);
    IndirectTrustInUnit(opinions);
    ReputationBetween(Gamma(Interactions(c), nMin), DirectTrust(c), IndirectTrust(opinions).value);
  }

  /** What each registered witness of ws says about q when asked in
      `_indirect_trust`, in registration order. */
  function Opinions(ws: seq<nat>, q: Provider, opinion: (nat, Provider) -> real): (ops: seq<real>)
    ensures |ops| == |ws|
    ensures forall i :: 0 <= i < |ws| ==> ops[i] == opinion(ws[i], q)
  {
    seq(|ws|, i requires 0 <= i < |ws| => opinion(ws[i], q))
  }

  /** `_rep(q)` for a provider with counters c, asked of the witnesses ws:
      gamma against the bound, direct trust, and the uniformly weighted
      indirect trust. */
  function RepOf(c: BetaCounts, ws: seq<nat>, q: Provider, nMin: real, opinion: (nat, Provider) -> real): real
    requires |ws| > 0
  {
    Reputation(Gamma(Interactions(c), nMin), DirectTrust(c), IndirectTrust(Opinions(ws, q, opinion)).value)
  }

  /** The cache after the rescoring loop has visited the first n keys. */
  function Rescore(scores: map<Provider, real>, keys: seq<Provider>, counts: map<Provider, BetaCounts>,
                   ws: seq<nat>, nMin: real, opinion: (nat, Provider) -> real, n: nat): map<Provider, real>
    requires n <= |keys| && Counted(keys, counts) && |ws| > 0
  {
    if n == 0 then scores
    else Rescore(scores, keys, counts, ws, nMin, opinion, n - 1)[keys[n - 1] := RepOf(counts[keys[n - 1]], ws, keys[n - 1], nMin, opinion)]
  }

  /** The loop adds exactly the visited keys and leaves each at its
      reputation; every other entry keeps its score. */
  lemma {:induction false} RescoreSpec(scores: map<Provider, real>, keys: seq<Provider>, counts: map<Provider, BetaCounts>,
                                       ws: seq<nat>, nMin: real, opinion: (nat, Provider) -> real, n: nat)
    requires n <= |keys| && Counted(keys, counts) && |ws| > 0
    ensures var r := Rescore(scores, keys, counts, ws, nMin, opinion, n);
      && (forall q :: q in r <==> q in scores || q in keys[..n])
      && (forall q :: q in keys[..n] ==> q in counts && r[q] == RepOf(counts[q], ws, q, nMin, opinion))
      && (forall q :: q in scores && q !in keys[..n] ==> r[q] == scores[q])
  {
    if n > 0 {
      RescoreSpec(scores, keys, counts, ws, nMin, opinion, n - 1);
      assert keys[..n] == keys[..n - 1] + [keys[n - 1]];
    }
  }

  /** One of n uniform weights summing to 1. */
  lemma UniformWeightsSumToOne(k: nat, ws: seq<real>)
    requires k > 0 && |ws| == k && forall i :: 0 <= i < k ==> ws[i] == UniformWeight(k)
    ensures Sum(ws) == 1.0
  {
    SumConst(ws, UniformWeight(k));
  }

  /** `after` is `before` with, for every witness of `top` and every
      provider of `known`, that witness's testimony about that provider
      appended; no entry is added or removed. */
  ghost predicate Appended(before: map<nat, map<Provider, seq<real>>>, after: map<nat, map<Provider, seq<real>>>,
                           top: seq<nat>, known: seq<Provider>, testimony: (nat, Provider) -> real)
  {
    && SameLists(before, after)
    && (forall w, x :: w in after && x in after[w] ==>
          after[w][x] == before[w][x] + (if w in top && x in known then [testimony(w, x)] else []))
  }

  /** Appending for one more provider p extends the appended set by p. */
  lemma AppendedStep(a: map<nat, map<Provider, seq<real>>>, b: map<nat, map<Provider, seq<real>>>,
                     c: map<nat, map<Provider, seq<real>>>, top: seq<nat>, known: seq<Provider>, p: Provider,
                     testimony: (nat, Provider) -> real)
    requires Appended(a, b, top, known, testimony)
    requires Appended(b, c, top, [p], testimony)
    requires p !in known
    ensures Appended(a, c, top, known + [p], testimony)
  {
    forall w, x | w in c && x in c[w]
      ensures c[w][x] == a[w][x] + (if w in top && x in known + [p] then [testimony(w, x)] else [])
    {
      assert x in known + [p] <==> x in known || x == p;
    }
  }

  /** `update_provider`'s history loop runs over the registered providers;
      the index of the first one other than p without histories (where the
      loop raises KeyError), or |keys| when there is none. */
  function FirstUntracked(keys: seq<Provider>, rounds: map<Provider, seq<Round>>, p: Provider): (s: nat)
    ensures s <= |keys|
    ensures forall i :: 0 <= i < s ==> keys[i] == p || keys[i] in rounds
    ensures s < |keys| ==> keys[s] != p && keys[s] !in rounds
  {
    if keys == [] then 0
    else if keys[0] == p || keys[0] in rounds then 1 + FirstUntracked(keys[1..], rounds, p)
    else 0
  }

  /** One visit of the history loop: a provider q other than p that has
      histories gets False and False appended. */
  function Visit(prev: map<Provider, seq<Round>>, q: Provider, p: Provider): map<Provider, seq<Round>>
  {
    if q != p && q in prev then prev[q := prev[q] + [Round(false, false)]] else prev
  }

  /** The histories once `update_provider(p, ...)` has given p the outcome
      and a True decision and has gone through the registered providers
      before index s, giving each of them other than p False and False. */
  function AfterInteraction(rounds: map<Provider, seq<Round>>, keys: seq<Provider>, p: Provider, outcome: bool, s: nat)
    : (after: map<Provider, seq<Round>>)
    requires s <= |keys| && p in rounds
    ensures forall q :: q in after <==> q in rounds
  {
    if s == 0 then rounds[p := rounds[p] + [Round(outcome, true)]]
    else Visit(AfterInteraction(rounds, keys, p, outcome, s - 1), keys[s - 1], p)
  }

  /** The first s entries of a list without repeats are its first s - 1
      followed by the s-th, which is not among them. */
  lemma PrefixLast(keys: seq<Provider>, s: nat)
    requires 0 < s <= |keys| && Distinct(keys)
    ensures keys[..s] == keys[..s - 1] + [keys[s - 1]]
    ensures keys[s - 1] !in keys[..s - 1]
  {
    assert keys[..s] == keys[..s - 1] + [keys[s - 1]];
    forall i | 0 <= i < s - 1 ensures keys[i] != keys[s - 1] {
      assert i != s - 1;
    }
  }

  /** Visiting the s-th provider takes the histories after the first s - 1
      providers to those after the first s. */
  lemma VisitStep(rounds: map<Provider, seq<Round>>, prev: map<Provider, seq<Round>>, keys: seq<Provider>,
                  p: Provider, outcome: bool, s: nat)
    requires 0 < s <= |keys| && Distinct(keys)
    requires forall q :: q in prev <==> q in rounds
    requires forall q :: q in prev ==>
        prev[q] == rounds[q] + (if q == p then [Round(outcome, true)]
                                else if q in keys[..s - 1] then [Round(false, false)] else [])
    ensures var after := Visit(prev, keys[s - 1], p);
      forall q :: q in after ==>
        after[q] == rounds[q] + (if q == p then [Round(outcome, true)]
                                 else if q in keys[..s] then [Round(false, false)] else [])
  {
    var k := keys[s - 1];
    var after := Visit(prev, k, p);
    PrefixLast(keys, s);
    forall q | q in after
      ensures after[q] == rounds[q] + (if q == p then [Round(outcome, true)]
                                       else if q in keys[..s] then [Round(false, false)] else [])
    {
      assert q in prev;
      var before := if q == p then [Round(outcome, true)]
                    else if q in keys[..s - 1] then [Round(false, false)] else [];
      var now := if q == p then [Round(outcome, true)]
                 else if q in keys[..s] then [Round(false, false)] else [];
      assert prev[q] == rounds[q] + before;
      if q != p && q == k {
        assert before == [] && now == [Round(false, false)];
        assert prev[q] == rounds[q];
        assert after[q] == prev[q] + now;
      } else {
        assert before == now;
        assert after[q] == prev[q];
      }
    }
  }

  /** Each history after the first s providers: p's has grown by its
      outcome and True, those of the other visited providers by False and
      False, and the rest are as they were. */
  lemma {:induction false} AfterInteractionSpec(rounds: map<Provider, seq<Round>>, keys: seq<Provider>, p: Provider,
                                                outcome: bool, s: nat)
    requires s <= |keys| && p in rounds && Distinct(keys)
    ensures var after := AfterInteraction(rounds, keys, p, outcome, s);
      forall q :: q in after ==>
        after[q] == rounds[q] + (if q == p then [Round(outcome, true)]
                                 else if q in keys[..s] then [Round(false, false)] else [])
  {
    if s > 0 {
      AfterInteractionSpec(rounds, keys, p, outcome, s - 1);
      VisitStep(rounds, AfterInteraction(rounds, keys, p, outcome, s - 1), keys, p, outcome, s);
    }
  }

  /** The history loop of `update_provider`: p's histories get the outcome
      and True, then every registered provider other than p in turn gets
      False and False, up to the first without histories (where KeyError is
      raised). Returns the histories and how far the loop got. */
  method RecordRounds(rounds: map<Provider, seq<Round>>, keys: seq<Provider>, p: Provider, outcome: bool)
    returns (after: map<Provider, seq<Round>>, i: nat)
    requires p in rounds
    ensures i == FirstUntracked(keys, rounds, p)
    ensures after == AfterInteraction(rounds, keys, p, outcome, i)
  {
    after := rounds[p := rounds[p] + [Round(outcome, true)]];
    i := 0;
    while i < |keys| && (keys[i] == p || keys[i] in after)
      invariant i <= |keys|
      invariant after == AfterInteraction(rounds, keys, p, outcome, i)
      invariant forall j :: 0 <= j < i ==> keys[j] == p || keys[j] in rounds
    {
      if keys[i] != p {
        after := after[keys[i] := after[keys[i]] + [Round(false, false)]];
      }
      i := i + 1;
    }
  }

  /** A complete pass over providers that all have histories gives p its
      outcome and every other provider with histories False and False: all
      histories grow by one step, so equal lengths stay equal. */
  lemma CompleteInteraction(rounds: map<Provider, seq<Round>>, keys: seq<Provider>, p: Provider, outcome: bool)
    requires p in rounds && Distinct(keys) && forall q :: q in rounds ==> q in keys
    ensures var after := AfterInteraction(rounds, keys, p, outcome, |keys|);
      && (forall q :: q in after <==> q in rounds)
      && (forall q :: q in after ==> after[q] == rounds[q] + [if q == p then Round(outcome, true) else Round(false, false)])
      && ((forall q1, q2 :: q1 in rounds && q2 in rounds ==> |rounds[q1]| == |rounds[q2]|) ==>
          (forall q1, q2 :: q1 in after && q2 in after ==> |after[q1]| == |after[q2]|))
  {
    AfterInteractionSpec(rounds, keys, p, outcome, |keys|);
    assert keys[..|keys|] == keys;
  }

  /** The histories and counters `after` and `afterCounts` left by the
      first part of `update_provider(p, ...)` with the given success,
      starting from `rounds` and `counts`; `completed` says whether the
      history loop got through. An untracked p raises at once and changes
      nothing. Otherwise p's histories get the success and True, and those
      of the providers of keys other than p get False and False in order, up
      to the first without histories. Only a complete pass counts the
      interaction for p; it then lengthens every history by one step, so
      histories of equal length stay so. No entry is added or removed. */
  ghost predicate Interaction(rounds: map<Provider, seq<Round>>, counts: map<Provider, BetaCounts>, keys: seq<Provider>,
                              p: Provider, success: bool, after: map<Provider, seq<Round>>,
                              afterCounts: map<Provider, BetaCounts>, completed: bool)
  {
    && (forall q :: q in after <==> q in rounds)
    && (forall q :: q in afterCounts <==> q in counts)
    && (p !in rounds ==> !completed && after == rounds)
    && (p in rounds ==>
          var s := FirstUntracked(keys, rounds, p);
          after == AfterInteraction(rounds, keys, p, success, s) && (completed <==> s == |keys|))
    && (!completed ==> afterCounts == counts)
    && (completed ==>
          && p in counts && afterCounts == counts[p := Tally(counts[p], success)]
          && (forall q :: q in after ==>
                after[q] == rounds[q] + [if q == p then Round(success, true) else Round(false, false)])
          && ((forall q1, q2 :: q1 in rounds && q2 in rounds ==> |rounds[q1]| == |rounds[q2]|) ==>
              (forall q1, q2 :: q1 in after && q2 in after ==> |after[q1]| == |after[q2]|)))
  }

  /** The histories and counters part of `update_provider`, on the values:
      the history loop, then, after a complete pass, the counter update. */
  method Interact(rounds: map<Provider, seq<Round>>, counts: map<Provider, BetaCounts>, keys: seq<Provider>,
                  p: Provider, success: bool)
    returns (after: map<Provider, seq<Round>>, afterCounts: map<Provider, BetaCounts>, completed: bool)
    requires Distinct(keys) && (forall q :: q in rounds <==> q in counts) && (forall q :: q in rounds ==> q in keys)
    ensures Interaction(rounds, counts, keys, p, success, after, afterCounts, completed)
  {
    if p !in rounds {
      return rounds, counts, false;
    }
    var i;
    after, i := RecordRounds(rounds, keys, p, success);
    if i < |keys| {
      return after, counts, false;
    }
    CompleteInteraction(rounds, keys, p, success);
    afterCounts := counts[p := Tally(counts[p], success)];
    completed := true;
  }

  /** `_direct_trust`, the key the known providers are sorted by. */
  function TrustOf(counts: map<Provider, BetaCounts>, q: Provider): real
  {
    if q in counts then DirectTrust(counts[q]) else 0.0
  }

  function Trusts(qs: seq<Provider>, counts: map<Provider, BetaCounts>): (ts: seq<real>)
    ensures |ts| == |qs| && forall i :: 0 <= i < |qs| ==> ts[i] == TrustOf(counts, qs[i])
  {
    seq(|qs|, i requires 0 <= i < |qs| => TrustOf(counts, qs[i]))
  }

  /** What is left once the provider at i is taken out is part of qs. */
  lemma RemovedFrom(qs: seq<Provider>, i: nat)
    requires i < |qs|
    ensures multiset(qs) == multiset(qs[..i] + qs[i + 1..]) + multiset{qs[i]}
    ensures forall y :: y in qs[..i] + qs[i + 1..] ==> y in qs
  {
    assert qs == qs[..i] + [qs[i]] + qs[i + 1..];
  }

  /** The provider the ranking takes first is at least as trusted as any
      other. */
  lemma MostTrustedFirst(qs: seq<Provider>, counts: map<Provider, BetaCounts>)
    requires qs != []
    ensures forall y :: y in qs ==> TrustOf(counts, y) <= TrustOf(counts, qs[FirstMaxIndex(Trusts(qs, counts))])
  {
    var ts := Trusts(qs, counts);
    var i := FirstMaxIndex(ts);
    forall y | y in qs
      ensures TrustOf(counts, y) <= TrustOf(counts, qs[i])
    {
      var k :| 0 <= k < |qs| && qs[k] == y;
      assert ts[k] <= ts[i];
    }
  }

  /** `sorted(known, key=_direct_trust, reverse=True)`: a stable sort by
      direct trust, highest first, built by taking the earliest most
      trusted remaining provider each time. It rearranges the providers. */
  function RankByTrust(qs: seq<Provider>, counts: map<Provider, BetaCounts>): (r: seq<Provider>)
    ensures multiset(r) == multiset(qs)
    decreases |qs|
  {
    if qs == [] then []
    else
      var i := FirstMaxIndex(Trusts(qs, counts));
      RemovedFrom(qs, i);
      [qs[i]] + RankByTrust(qs[..i] + qs[i + 1..], counts)
  }

  /** Every provider of r is at least as trusted as every later one. */
  ghost predicate Descending(counts: map<Provider, BetaCounts>, r: seq<Provider>)
  {
    forall a, b :: 0 <= a < b < |r| ==> TrustOf(counts, r[a]) >= TrustOf(counts, r[b])
  }

  /** A most trusted provider put in front of a descending list keeps it
      descending. */
  lemma DescendingCons(counts: map<Provider, BetaCounts>, x: Provider, rest: seq<Provider>)
    requires Descending(counts, rest)
    requires forall y :: y in rest ==> TrustOf(counts, y) <= TrustOf(counts, x)
    ensures Descending(counts, [x] + rest)
  {
    var r := [x] + rest;
    forall a, b | 0 <= a < b < |r|
      ensures TrustOf(counts, r[a]) >= TrustOf(counts, r[b])
    {
      assert r[b] == rest[b - 1];
      if a > 0 {
        assert r[a] == rest[a - 1];
      } else {
        assert rest[b - 1] in rest;
      }
    }
  }

  /** The ranking puts more trusted providers first. */
  lemma {:induction false} RankByTrustSorted(qs: seq<Provider>, counts: map<Provider, BetaCounts>)
    ensures Descending(counts, RankByTrust(qs, counts))
    decreases |qs|
  {
    if qs != [] {
      var i := FirstMaxIndex(Trusts(qs, counts));
      var rest := qs[..i] + qs[i + 1..];
      var rec := RankByTrust(rest, counts);
      RankByTrustSorted(rest, counts);
      RemovedFrom(qs, i);
      MostTrustedFirst(qs, counts);
      forall y | y in rec
        ensures TrustOf(counts, y) <= TrustOf(counts, qs[i])
      {
        assert y in multiset(rec);
        assert y in rest;
      }
      DescendingCons(counts, qs[i], rec);
      assert RankByTrust(qs, counts) == [qs[i]] + rec;
    }
  }

  /** Ranking distinct providers lists none twice. */
  lemma {:induction false} RankByTrustDistinct(qs: seq<Provider>, counts: map<Provider, BetaCounts>)
    requires Distinct(qs)
    ensures Distinct(RankByTrust(qs, counts))
    decreases |qs|
  {
    if qs != [] {
      var i := FirstMaxIndex(Trusts(qs, counts));
      var rest := qs[..i] + qs[i + 1..];
      assert Distinct(rest) by {
        forall a, b | 0 <= a < b < |rest| ensures rest[a] != rest[b] {
          var ia := if a < i then a else a + 1;
          var ib := if b < i then b else b + 1;
          assert rest[a] == qs[ia] && rest[b] == qs[ib];
        }
      }
      assert qs[i] !in rest by {
        forall a | 0 <= a < |rest| ensures rest[a] != qs[i] {
          assert rest[a] == qs[if a < i then a else a + 1];
        }
      }
      RankByTrustDistinct(rest, counts);
      var rec := RankByTrust(rest, counts);
      assert RankByTrust(qs, counts) == [qs[i]] + rec;
      DistinctCons(qs[i], rec, rest);
    }
  }

  /** A provider in front of a distinct list it is not part of (nor of a
      rearrangement of it) keeps the list distinct. */
  lemma DistinctCons(x: Provider, rec: seq<Provider>, rest: seq<Provider>)
    requires Distinct(rec) && multiset(rec) == multiset(rest) && x !in rest
    ensures Distinct([x] + rec)
  {
    var r := [x] + rec;
    forall a, b | 0 <= a < b < |r|
      ensures r[a] != r[b]
    {
      assert r[b] == rec[b - 1];
      if a > 0 {
        assert r[a] == rec[a - 1];
      } else {
        assert rec[b - 1] in multiset(rest);
      }
    }
  }

  /** The testimony lists a and b exist for the same witnesses and
      providers. */
  ghost predicate SameLists(a: map<nat, map<Provider, seq<real>>>, b: map<nat, map<Provider, seq<real>>>)
  {
    && (forall w :: w in b <==> w in a)
    && (forall w, x :: w in b ==> (x in b[w] <==> x in a[w]))
  }

  /** The testimony lists once the inner loop for provider q has gone
      through the witnesses of top before index j, each appending its
      testimony about q to its own list. */
  function AddTestimonies(t: map<nat, map<Provider, seq<real>>>, top: seq<nat>, q: Provider,
                          testimony: (nat, Provider) -> real, j: nat): (after: map<nat, map<Provider, seq<real>>>)
    requires j <= |top|
  {
    if j == 0 then t
    else
      var prev := AddTestimonies(t, top, q, testimony, j - 1);
      var w := top[j - 1];
      if w in prev && q in prev[w] then prev[w := prev[w][q := prev[w][q] + [testimony(w, q)]]] else prev
  }

  /** Going through the first j distinct witnesses appends exactly their
      testimonies about q. */
  lemma {:induction false} AddTestimoniesSpec(t: map<nat, map<Provider, seq<real>>>, top: seq<nat>, q: Provider,
                                              testimony: (nat, Provider) -> real, j: nat)
    requires j <= |top| && Distinct(top)
    ensures Appended(t, AddTestimonies(t, top, q, testimony, j), top[..j], [q], testimony)
  {
    if j > 0 {
      AddTestimoniesSpec(t, top, q, testimony, j - 1);
      assert top[..j] == top[..j - 1] + [top[j - 1]];
      assert top[j - 1] !in top[..j - 1];
    }
  }

  /** The index of the first witness of top without a testimony list for x
      (where `_test[w][x] += ...` raises KeyError), or |top|. */
  function FirstMissing(t: map<nat, map<Provider, seq<real>>>, x: Provider, top: seq<nat>): (s: nat)
    ensures s <= |top|
    ensures forall j :: 0 <= j < s ==> top[j] in t && x in t[top[j]]
    ensures s < |top| ==> !(top[s] in t && x in t[top[s]])
  {
    if top == [] then 0
    else if top[0] in t && x in t[top[0]] then 1 + FirstMissing(t, x, top[1..])
    else 0
  }

  /** The index of the first provider of rows some witness of top has no
      testimony list for, or |rows|. */
  function FirstUntestified(t: map<nat, map<Provider, seq<real>>>, rows: seq<Provider>, top: seq<nat>): (i: nat)
    ensures i <= |rows|
    ensures forall k :: 0 <= k < i ==> FirstMissing(t, rows[k], top) == |top|
    ensures i < |rows| ==> FirstMissing(t, rows[i], top) < |top|
  {
    if rows == [] then 0
    else if FirstMissing(t, rows[0], top) == |top| then 1 + FirstUntestified(t, rows[1..], top)
    else 0
  }

  /** Where the lists are the same, so are the stop indices. */
  lemma {:induction false} FirstMissingSameLists(a: map<nat, map<Provider, seq<real>>>, b: map<nat, map<Provider, seq<real>>>,
                                                 x: Provider, top: seq<nat>)
    requires SameLists(a, b)
    ensures FirstMissing(a, x, top) == FirstMissing(b, x, top)
  {
    if top != [] {
      FirstMissingSameLists(a, b, x, top[1..]);
    }
  }

  /** `after` is `before` with one testimony appended for every witness of
      `top` about every provider of `rows`, and for every witness of
      `partial` about `last`. */
  ghost predicate AppendedPartly(before: map<nat, map<Provider, seq<real>>>, after: map<nat, map<Provider, seq<real>>>,
                                 top: seq<nat>, rows: seq<Provider>, partial: seq<nat>, last: Provider,
                                 testimony: (nat, Provider) -> real)
  {
    && SameLists(before, after)
    && (forall w, x :: w in after && x in after[w] ==>
          after[w][x] == before[w][x]
            + (if (w in top && x in rows) || (w in partial && x == last) then [testimony(w, x)] else []))
  }

  /** Complete rows followed by part of one more row. */
  lemma AppendedPartlyStep(a: map<nat, map<Provider, seq<real>>>, b: map<nat, map<Provider, seq<real>>>,
                           c: map<nat, map<Provider, seq<real>>>, top: seq<nat>, rows: seq<Provider>, partial: seq<nat>,
                           p: Provider, testimony: (nat, Provider) -> real)
    requires Appended(a, b, top, rows, testimony)
    requires Appended(b, c, partial, [p], testimony)
    requires p !in rows
    ensures AppendedPartly(a, c, top, rows, partial, p, testimony)
  {
    forall w, x | w in c && x in c[w]
      ensures c[w][x] == a[w][x] + (if (w in top && x in rows) || (w in partial && x == p) then [testimony(w, x)] else [])
    {
      assert w in b && x in b[w];
      var before := a[w][x];
      var mid := b[w][x];
      var inRows := if w in top && x in rows then [testimony(w, x)] else [];
      var inLast := if w in partial && x in [p] then [testimony(w, x)] else [];
      var both := if (w in top && x in rows) || (w in partial && x == p) then [testimony(w, x)] else [];
      assert mid == before + inRows;
      assert c[w][x] == mid + inLast;
      if w in partial && x == p {
        assert x !in rows;
        assert inRows == [] && inLast == both;
        assert mid == before;
      } else {
        assert inLast == [] && inRows == both;
        assert c[w][x] == mid;
      }
    }
  }


  /** The inner testimony loop for one provider q: each witness of top in
      turn appends what it says about q, up to the first without a list
      for q, where KeyError is raised. Returns the lists and how far the
      loop got. */
  method TestifyRow(t: map<nat, map<Provider, seq<real>>>, top: seq<nat>, q: Provider, testimony: (nat, Provider) -> real)
    returns (after: map<nat, map<Provider, seq<real>>>, j: nat)
    requires Distinct(top)
    ensures j == FirstMissing(t, q, top)
    ensures after == AddTestimonies(t, top, q, testimony, j)
  {
    after := t;
    j := 0;
    while j < |top| && top[j] in after && q in after[top[j]]
      invariant j <= |top|
      invariant after == AddTestimonies(t, top, q, testimony, j)
      invariant forall w :: (w in after && q in after[w]) <==> (w in t && q in t[w])
      invariant forall k :: 0 <= k < j ==> top[k] in t && q in t[top[k]]
    {
      var w := top[j];
      after := after[w := after[w][q := after[w][q] + [testimony(w, q)]]];
      j := j + 1;
    }
    AddTestimoniesSpec(t, top, q, testimony, j);
  }

  /** The outer testimony loop over the providers of rows, up to the first
      inner loop that raises: the rows before the first incompletely
      testified one are appended in full, that one up to its first missing
      list. */
  method TestifyAll(t: map<nat, map<Provider, seq<real>>>, rows: seq<Provider>, top: seq<nat>,
                    testimony: (nat, Provider) -> real)
    returns (after: map<nat, map<Provider, seq<real>>>, ok: bool)
    requires Distinct(rows) && Distinct(top)
    ensures TestimonyLoop(t, after, if ok then None else Some(KeyError), rows, top, testimony)
    ensures ok <==> FirstUntestified(t, rows, top) == |rows|
  {
    after := t;
    for i := 0 to |rows|
      invariant Appended(t, after, top, rows[..i], testimony)
      invariant forall k :: 0 <= k < i ==> FirstMissing(t, rows[k], top) == |top|
    {
      assert rows[..i + 1] == rows[..i] + [rows[i]];
      assert rows[i] !in rows[..i];
      FirstMissingSameLists(t, after, rows[i], top);
      var next, j := TestifyRow(after, top, rows[i], testimony);
      AddTestimoniesSpec(after, top, rows[i], testimony, j);
      if j < |top| {
        AppendedPartlyStep(t, after, next, top, rows[..i], top[..j], rows[i], testimony);
        return next, false;
      }
      assert top[..|top|] == top;
      AppendedStep(t, after, next, top, rows[..i], rows[i], testimony);
      after := next;
    }
    assert rows[..|rows|] == rows;
    ok := true;
  }

  /** The testimony lists `after` once the testimony loop over the ranked
      providers and the consulted witnesses top stopped with e, starting
      from `before`. A TypeError comes before any append. A KeyError comes
      at the first missing list in loop order: every consulted witness has
      appended for the providers ranked before the first incompletely
      testified one, and the witnesses ahead of the first missing list for
      that provider. Otherwise every consulted witness has appended once
      for every ranked provider. */
  ghost predicate TestimonyLoop(before: map<nat, map<Provider, seq<real>>>, after: map<nat, map<Provider, seq<real>>>,
                                e: Option<Error>, ranked: seq<Provider>, top: seq<nat>, testimony: (nat, Provider) -> real)
  {
    var i := FirstUntestified(before, ranked, top);
    && (e.None? ==> Appended(before, after, top, ranked, testimony))
    && (e == Some(TypeError) ==> after == before)
    && (e == Some(KeyError) ==>
          i < |ranked| &&
          AppendedPartly(before, after, top, ranked[..i], top[..FirstMissing(before, ranked[i], top)], ranked[i], testimony))
  }

  /** Every witness of ws has a learned parameter for p. */
  predicate LearnedBy(learning: map<nat, map<Provider, real>>, ws: seq<nat>, p: Provider)
  {
    forall i :: 0 <= i < |ws| ==> ws[i] in learning && p in learning[ws[i]]
  }

  /** Where the rescoring loop over keys raises KeyError: the index of the
      first provider some witness of ws has no learned parameter for (the
      `_pi` in `_indirect_trust` reads it), or |keys|. */
  function FirstUnlearned(learning: map<nat, map<Provider, real>>, ws: seq<nat>, keys: seq<Provider>): (s: nat)
    ensures s <= |keys|
    ensures forall j :: 0 <= j < s ==> LearnedBy(learning, ws, keys[j])
    ensures s < |keys| ==> !LearnedBy(learning, ws, keys[s])
  {
    if keys == [] then 0
    else if LearnedBy(learning, ws, keys[0]) then 1 + FirstUnlearned(learning, ws, keys[1..])
    else 0
  }

  /** The rescoring loop `for q in providers: scores[q] = _rep(q)`: each
      provider of keys in turn gets its reputation, up to the first without
      a learned parameter at every witness, where KeyError is raised.
      Returns the cache and how far the loop got. */
  method ScoreAll(scores: map<Provider, real>, keys: seq<Provider>, counts: map<Provider, BetaCounts>, ws: seq<nat>,
                  learning: map<nat, map<Provider, real>>, nMin: real, opinion: (nat, Provider) -> real)
    returns (after: map<Provider, real>, i: nat)
    requires Counted(keys, counts) && |ws| > 0
    ensures i == FirstUnlearned(learning, ws, keys)
    ensures after == Rescore(scores, keys, counts, ws, nMin, opinion, i)
  {
    after := scores;
    i := 0;
    while i < |keys| && LearnedBy(learning, ws, keys[i])
      invariant i <= |keys|
      invariant after == Rescore(scores, keys, counts, ws, nMin, opinion, i)
      invariant forall j :: 0 <= j < i ==> LearnedBy(learning, ws, keys[j])
    {
      after := after[keys[i] := RepOf(counts[keys[i]], ws, keys[i], nMin, opinion)];
      i := i + 1;
    }
  }

  /** Every witness of top has a testimony list for every provider of
      known. */
  predicate Covered(t: map<nat, map<Provider, seq<real>>>, known: seq<Provider>, top: seq<nat>)
  {
    forall i, j :: 0 <= i < |known| && 0 <= j < |top| ==> top[j] in t && known[i] in t[top[j]]
  }

  /** The exception the testimony loop raises, if any, given the lists t,
      the known providers and what `_top_witnesses` gives: only when some
      provider is known are the top witnesses sorted (TypeError on a None
      weight among several) and their testimony lists read (KeyError). */
  function TestimonyFailure(t: map<nat, map<Provider, seq<real>>>, known: seq<Provider>, top: Result<seq<nat>>)
    : Option<Error>
  {
    if |known| > 0 && top.Err? then Some(TypeError)
    else if |known| > 0 && !Covered(t, known, top.value) then Some(KeyError)
    else None
  }

  /** The witnesses the testimony loop consults: the top witnesses, once
      some provider is known. */
  function ConsultedOf(known: seq<Provider>, top: Result<seq<nat>>): seq<nat>
  {
    if |known| > 0 && top.Ok? then top.value else []
  }

  /** A ranking of the known providers is completely testified exactly when
      the known providers are. */
  lemma CoveredRanked(t: map<nat, map<Provider, seq<real>>>, known: seq<Provider>, ranked: seq<Provider>, top: seq<nat>)
    requires multiset(ranked) == multiset(known)
    ensures Covered(t, known, top) <==> FirstUntestified(t, ranked, top) == |ranked|
  {
    if Covered(t, known, top) {
      forall l | 0 <= l < |ranked|
        ensures FirstMissing(t, ranked[l], top) == |top|
      {
        assert ranked[l] in multiset(known);
        var k :| 0 <= k < |known| && known[k] == ranked[l];
      }
    }
    if FirstUntestified(t, ranked, top) == |ranked| {
      forall k, j | 0 <= k < |known| && 0 <= j < |top|
        ensures top[j] in t && known[k] in t[top[j]]
      {
        assert known[k] in multiset(ranked);
        var l :| 0 <= l < |ranked| && ranked[l] == known[k];
        assert FirstMissing(t, ranked[l], top) == |top|;
      }
    }
  }

  /** The testimony loop of `_testimony_aggregation` on the lists t: the
      known providers sorted by direct trust, then for each of them every
      consulted witness appends its testimony, up to the first exception. */
  method Testify(t: map<nat, map<Provider, seq<real>>>, known: seq<Provider>, counts: map<Provider, BetaCounts>,
                 top: Result<seq<nat>>, testimony: (nat, Provider) -> real)
    returns (after: map<nat, map<Provider, seq<real>>>, e: Option<Error>)
    requires Distinct(known) && (top.Ok? ==> Distinct(top.value))
    ensures e == TestimonyFailure(t, known, top)
    ensures TestimonyLoop(t, after, e, RankByTrust(known, counts), ConsultedOf(known, top), testimony)
  {
    var ranked := RankByTrust(known, counts);
    if |known| == 0 {
      assert ranked == [];
      return t, None;
    }
    if top.Err? {
      return t, Some(TypeError);
    }
    RankByTrustDistinct(known, counts);
    CoveredRanked(t, known, ranked, top.value);
    var ok;
    after, ok := TestifyAll(t, ranked, top.value, testimony);
    e := if ok then None else Some(KeyError);
  }

  /** The exception the rescoring raises, if any: no registered provider
      (`sorted(...)[0]` of an empty cache), an undefined bound, no witness
      to divide by, a missing learned parameter. */
  function ScoringFailure(keys: seq<Provider>, bound: Result<real>, ws: seq<nat>, learning: map<nat, map<Provider, real>>)
    : Option<Error>
  {
    if |keys| == 0 then Some(IndexError)
    else if bound.Err? then Some(bound.error)
    else if |ws| == 0 then Some(ZeroDivision)
    else if FirstUnlearned(learning, ws, keys) < |keys| then Some(KeyError)
    else None
  }

  /** The cache `after` and the result r of the rescoring and the final
      pick, starting from the cache `before`. An exception raised at the
      first provider (no provider, the bound, no witness) keeps the cache;
      otherwise the providers before the first unlearned one hold their
      reputations and no other entry is added. A complete pass returns the
      earliest best-scored provider, every provider holding its
      reputation. */
  ghost predicate Rescoring(before: map<Provider, real>, after: map<Provider, real>, r: Result<Provider>,
                            keys: seq<Provider>, counts: map<Provider, BetaCounts>, ws: seq<nat>,
                            learning: map<nat, map<Provider, real>>, bound: Result<real>, opinion: (nat, Provider) -> real)
    requires Counted(keys, counts)
  {
    var failure := ScoringFailure(keys, bound, ws, learning);
    && (forall q :: q in after ==> q in before || q in keys)
    && (failure.Some? ==> r == Err(failure.value))
    && (|keys| == 0 || bound.Err? || |ws| == 0 ==> after == before)
    && (|keys| > 0 && bound.Ok? && |ws| > 0 ==>
          after == Rescore(before, keys, counts, ws, bound.value, opinion, FirstUnlearned(learning, ws, keys)))
    && (failure.None? ==>
          && r.Ok? && bound.Ok? && |keys| > 0 && |ws| > 0
          && (forall i :: 0 <= i < |keys| ==>
                keys[i] in after && after[keys[i]] == RepOf(counts[keys[i]], ws, keys[i], bound.value, opinion))
          && r.value == keys[FirstBest(keys, after)])
  }

  /** The rescoring of `_testimony_aggregation` on the cache `before`. */
  method Score(before: map<Provider, real>, keys: seq<Provider>, counts: map<Provider, BetaCounts>, ws: seq<nat>,
               learning: map<nat, map<Provider, real>>, bound: Result<real>, opinion: (nat, Provider) -> real)
    returns (after: map<Provider, real>, r: Result<Provider>)
    requires Counted(keys, counts)
    ensures Rescoring(before, after, r, keys, counts, ws, learning, bound, opinion)
  {
    if |keys| == 0 {
      return before, Err(IndexError);
    }
    if bound.Err? {
      return before, Err(bound.error);
    }
    if |ws| == 0 {
      return before, Err(ZeroDivision);
    }
    var i;
    after, i := ScoreAll(before, keys, counts, ws, learning, bound.value, opinion);
    RescoreSpec(before, keys, counts, ws, bound.value, opinion, i);
    if i < |keys| {
      return after, Err(KeyError);
    }
    assert keys[..|keys|] == keys;
    r := Ok(keys[FirstBest(keys, after)]);
  }

  class Act {
    const base: Consumer
    /** `_Th`: the score from which an interaction counts as a success. */
    const th: real
    const prMin: real
    /** `_M`: how many top witnesses take part in learning and testimony. */
    const m: int
    const epsilon: real
    const smallTheta: real
    /** The value of `log((1 - small_theta) / 2, e)`, where defined. */
    const logTerm: real
    var counts: map<Provider, BetaCounts>
    /** `_r_tilde`: the smoothed reward; only unreachable code reads it. */
    var smoothedRewards: map<Provider, real>
    var rounds: map<Provider, seq<Round>>
    /** `_p`: the learned parameter of each witness for each provider. */
    var learning: map<nat, map<Provider, real>>
    /** `_test`: the testimonies each witness gave for each provider. */
    var testimonies: map<nat, map<Provider, seq<real>>>
    /** `_pr`: the exploration probability. */
    var pr: real

    /** Every learned parameter is the 0 registration stores (the only
        update to it raises before assigning), the score cache holds only
        registered providers, and the counters and histories cover the same
        registered providers. */
    ghost predicate Valid()
      reads this`learning, this`rounds, this`counts, base`witnesses, base`providers, base`scores
    {
      && base.Valid()
      && (forall w, q :: w in learning && q in learning[w] ==> learning[w][q] == 0.0)
      && (forall q :: q in base.scores ==> q in base.providers.values)
      && (forall q :: q in rounds <==> q in counts)
      && (forall q :: q in rounds ==> q in base.providers.values)
    }

    constructor (th: real, prMin: real, m: int, epsilon: real, smallTheta: real, logTerm: real)
      ensures Valid() && fresh(base)
      ensures base.witnesses.keys == [] && base.providers.keys == [] && base.scores == map[]
      ensures this.th == th && this.prMin == prMin && this.m == m
      ensures this.epsilon == epsilon && this.smallTheta == smallTheta && this.logTerm == logTerm
      ensures counts == map[] && smoothedRewards == map[] && rounds == map[]
      ensures learning == map[] && testimonies == map[]
      ensures pr == 1.0
    {
      base := new Consumer();
      this.th := th;
      this.prMin := prMin;
      this.m := m;
      this.epsilon := epsilon;
      this.smallTheta := smallTheta;
      this.logTerm := logTerm;
      counts := map[];
      smoothedRewards := map[];
      rounds := map[];
      learning := map[];
      testimonies := map[];
      pr := 1.0;
    }

    /** `update`: the exploration probability decays by 0.2 down to its
        floor. */
    method Update()
      modifies this`pr
      ensures pr == Decay(old(pr), prMin)
      ensures pr >= prMin
    {
      pr := if prMin >= pr - 0.2 then prMin else pr - 0.2;
    }

    /** `register_providers`: the base registration, then fresh counters
        and empty histories for exactly the given providers (earlier ones
        are dropped). */
    method RegisterProviders(ps: seq<Provider>)
      requires Valid()
      modifies base`providers, this`counts, this`smoothedRewards, this`rounds
      ensures Valid()
      ensures base.providers == PutAll(old(base.providers), ps, None)
      ensures forall q :: q in counts <==> q in ps
      ensures forall q :: q in counts ==> counts[q] == BetaCounts(0, 0)
      ensures forall q :: q in smoothedRewards <==> q in ps
      ensures forall q :: q in smoothedRewards ==> smoothedRewards[q] == 0.0
      ensures forall q :: q in rounds <==> q in ps
      ensures forall q :: q in rounds ==> rounds[q] == []
    {
      base.RegisterProviders(ps);
      PutAllSpec(old(base.providers), ps, None);
      counts := FromKeys(ps, BetaCounts(0, 0));
      smoothedRewards := FromKeys(ps, 0.0);
      rounds := FromKeys(ps, []);
    }

    /** `register_witnesses`: the base registration, then a zero parameter
        and an empty testimony list for each given witness and each provider
        registered so far (earlier witnesses are dropped). */
    method RegisterWitnesses(ws: seq<nat>)
      requires Valid()
      modifies base`witnesses, this`learning, this`testimonies
      ensures Valid()
      ensures base.witnesses == PutAll(old(base.witnesses), ws, None)
      ensures forall w :: w in learning <==> w in ws
      ensures forall w, q :: w in learning ==> (q in learning[w] <==> q in base.providers.values)
      ensures forall w :: w in testimonies <==> w in ws
      ensures forall w, q :: w in testimonies ==> (q in testimonies[w] <==> q in base.providers.values)
      ensures forall w, q :: w in testimonies && q in testimonies[w] ==> testimonies[w][q] == []
    {
      base.RegisterWitnesses(ws);
      var registered := base.providers.values.Keys;
      learning := map w | w in ws :: map q | q in registered :: 0.0;
      testimonies := map w | w in ws :: map q | q in registered :: [];
    }

    /** p and every registered provider have histories. */
    predicate Tracked(p: Provider)
      reads this, base
    {
      p in rounds && forall i :: 0 <= i < |base.providers.keys| ==> base.providers.keys[i] in rounds
    }

    /** Every registered witness has a learned parameter for p. */
    predicate Learned(p: Provider)
      reads this`learning, base`witnesses
    {
      LearnedBy(learning, base.witnesses.keys, p)
    }

    /** `update_provider(p, score)` up to the first exception. An
        unregistered p raises KeyError before anything changes. Otherwise
        both histories of p get the outcome (score at least `Th`) and a True
        decision, and the registered providers other than p get False and
        False in order, up to the first without histories, where KeyError
        is raised. After a complete pass p's success or failure counter
        moves up. From the second interaction on the top witnesses are read:
        a None weight among several raises TypeError, and the first top
        witness reaches `_update_p`, which raises KeyError without a
        parameter and AttributeError on the missing `epoch` otherwise. Else
        every witness weight becomes the softmax `_pi(w, p)`, which is 1/K
        for K witnesses, or KeyError if a parameter for p is missing. */
    method UpdateProvider(p: Provider, score: real) returns (r: Outcome)
      requires Valid()
      modifies this`rounds, this`counts, base`witnesses
      ensures Valid()
      ensures Interaction(old(rounds), old(counts), base.providers.keys, p, score >= th, rounds, counts, old(Tracked(p)))
      ensures !old(Tracked(p)) ==> r == Fail(KeyError) && base.witnesses == old(base.witnesses)
      ensures old(Tracked(p)) ==> Reinforced(p, old(base.witnesses), r)
      ensures r == Pass ==>
        && base.witnesses.keys == old(base.witnesses.keys)
        && forall w :: w in base.witnesses.values ==>
             base.witnesses.values[w] == Some(UniformWeight(|base.witnesses.keys|))
    {
      r := RecordInteraction(p, score);
      if r.Fail? {
        return;
      }
      r := Reinforce(p);
    }

    /** p is tracked exactly when it has histories and so does every
        registered provider the history loop visits. */
    lemma TrackedIsComplete(p: Provider)
      ensures Tracked(p) <==> p in rounds && FirstUntracked(base.providers.keys, rounds, p) == |base.providers.keys|
    {
    }

    /** The histories and counters part of `update_provider`: the loop over
        the registered providers stops at the first without histories with
        KeyError, before the counters are reached. */
    method RecordInteraction(p: Provider, score: real) returns (r: Outcome)
      requires Valid()
      modifies this`rounds, this`counts
      ensures Valid()
      ensures Interaction(old(rounds), old(counts), base.providers.keys, p, score >= th, rounds, counts, r == Pass)
      ensures r == Pass <==> old(Tracked(p))
      ensures r.Fail? ==> r == Fail(KeyError)
    {
      TrackedIsComplete(p);
      var completed;
      rounds, counts, completed := Interact(rounds, counts, base.providers.keys, p, score >= th);
      r := if completed then Pass else Fail(KeyError);
    }

    /** What the witness part of `update_provider` does with the witness
        weights `before`, given the counters already updated: from the
        second interaction on the top witnesses are read (a None weight
        among several raises TypeError) and the first of them reaches
        `_update_p`, which raises KeyError without a parameter for p and
        AttributeError on the missing `epoch` otherwise. Else every weight
        is replaced by `_pi(w, p)`, which raises KeyError if a parameter for
        p is missing. */
    ghost predicate Reinforced(p: Provider, before: ODict<nat, Option<real>>, r: Outcome)
      requires p in counts && ValidDict(before)
      reads this, base
    {
      var top := TopWitnesses(before, m);
      && (Interactions(counts[p]) > 1 && top.Err? ==> r == Fail(TypeError) && base.witnesses == before)
      && (Interactions(counts[p]) > 1 && top.Ok? && |top.value| > 0 ==>
            && base.witnesses == before
            && r == Fail(if top.value[0] in learning && p in learning[top.value[0]] then AttributeError else KeyError))
      && (Interactions(counts[p]) <= 1 || top == Ok([]) ==>
            && (|base.witnesses.keys| > 0 && !Learned(p) ==> r == Fail(KeyError) && base.witnesses == before)
            && (|base.witnesses.keys| == 0 || Learned(p) ==> r == Pass))
    }

    /** The witness part of `update_provider`, after the counters. */
    method Reinforce(p: Provider) returns (r: Outcome)
      requires Valid() && p in counts
      modifies base`witnesses
      ensures Valid()
      ensures Reinforced(p, old(base.witnesses), r)
      ensures r == Pass ==>
        && base.witnesses.keys == old(base.witnesses.keys)
        && forall w :: w in base.witnesses.values ==>
             base.witnesses.values[w] == Some(UniformWeight(|base.witnesses.keys|))
    {
      if Interactions(counts[p]) > 1 {
        var top := TopWitnesses(base.witnesses, m);
        if top.Err? {
          return Fail(TypeError);
        }
        if |top.value| > 0 {
          var first := top.value[0];
          return Fail(if first in learning && p in learning[first] then AttributeError else KeyError);
        }
      }
      r := Reweight(p);
    }

    /** The final loop of `update_provider`: every witness weight becomes
        `_pi(w, p)`, 1/K for K witnesses; a witness without a parameter for
        p raises KeyError at the first `_pi`, before any assignment. */
    method Reweight(p: Provider) returns (r: Outcome)
      requires Valid()
      modifies base`witnesses
      ensures Valid()
      ensures |old(base.witnesses.keys)| > 0 && !Learned(p) ==> r == Fail(KeyError) && base.witnesses == old(base.witnesses)
      ensures |old(base.witnesses.keys)| == 0 || Learned(p) ==> r == Pass
      ensures r == Pass ==>
        && base.witnesses.keys == old(base.witnesses.keys)
        && (forall w :: w in base.witnesses.values <==> w in old(base.witnesses.values))
        && (forall w :: w in base.witnesses.values ==>
             base.witnesses.values[w] == Some(UniformWeight(|base.witnesses.keys|)))
    {
      var k := |base.witnesses.keys|;
      if k > 0 && !Learned(p) {
        return Fail(KeyError);
      }
      if k > 0 {
        base.witnesses := ODict(base.witnesses.keys, map w | w in base.witnesses.values :: Some(UniformWeight(k)));
      }
      r := Pass;
    }
  
    /** `_unknown_providers` is non-empty and the draw falls in the
        exploration probability: `choice` picks an unknown provider. */
    predicate Explores(draw: real)
      reads this`counts, this`pr, base`providers
    {
      && Counted(base.providers.keys, counts)
      && draw <= pr
      && |ByExperience(base.providers.keys, counts, false)| > 0
    }

    /** `choose_provider` as written. Exploitation sorts the known
        providers with the key `_direct_trust(p, self.epoch)`, and a consumer
        has no `epoch`: AttributeError as soon as a provider is registered.
        The trust computation is therefore never reached. */
    function ChooseProviderAsWritten(draw: real, pick: nat): (r: Result<Provider>)
      requires Valid()
      reads this, base
      ensures !Counted(base.providers.keys, counts) ==> r == Err(KeyError)
      ensures Explores(draw) ==> r.Ok?
      ensures r.Ok? ==> r.value in base.providers.values && r.value in counts && Interactions(counts[r.value]) == 0
      ensures Counted(base.providers.keys, counts) && !Explores(draw) ==>
              r == Err(if |base.providers.keys| > 0 then AttributeError else IndexError)
    {
      var keys := base.providers.keys;
      if !Counted(keys, counts) then Err(KeyError)
      else
        var unknown := ByExperience(keys, counts, false);
        if draw <= pr && |unknown| > 0 then
          PartitionOf(keys, counts);
          ByExperienceDistinct(keys, counts, false);
          Ok(unknown[pick % |unknown|])
        else if |keys| > 0 then Err(AttributeError)
        else Err(IndexError)
    }

    /** The exception the testimony loop raises, if any. */
    function TestimonyError(): Option<Error>
      requires ValidDict(base.witnesses) && Counted(base.providers.keys, counts)
      reads this`testimonies, this`counts, base`providers, base`witnesses
    {
      TestimonyFailure(testimonies, ByExperience(base.providers.keys, counts, true), TopWitnesses(base.witnesses, m))
    }

    /** The top witnesses the testimony loop consults. */
    function Consulted(): seq<nat>
      requires ValidDict(base.witnesses) && Counted(base.providers.keys, counts)
      reads this`counts, base`providers, base`witnesses
    {
      ConsultedOf(ByExperience(base.providers.keys, counts, true), TopWitnesses(base.witnesses, m))
    }

    /** The known providers in the order the testimony loop visits them. */
    function Ranked(): seq<Provider>
      requires Counted(base.providers.keys, counts)
      reads this`counts, base`providers
    {
      RankByTrust(ByExperience(base.providers.keys, counts, true), counts)
    }

    /** The exception the rescoring raises, if any: no registered provider
        (`sorted(...)[0]` of an empty cache), an undefined bound, no witness
        to divide by, a missing learned parameter. */
    function ScoringError(): Option<Error>
      reads this`learning, base`providers, base`witnesses
    {
      ScoringFailure(base.providers.keys, NMin(epsilon, smallTheta, logTerm), base.witnesses.keys, learning)
    }

    /** The provider `choice` picks when exploring. */
    function Explored(draw: real, pick: nat): (q: Provider)
      requires Explores(draw)
      reads this`counts, this`pr, base`providers
      ensures q in counts && Interactions(counts[q]) == 0
    {
      var unknown := ByExperience(base.providers.keys, counts, false);
      PartitionOf(base.providers.keys, counts);
      assert unknown[pick % |unknown|] in unknown;
      unknown[pick % |unknown|]
    }

    /** `choose_provider` with the trust formulas evaluated (the `epoch`
        argument, which no trust formula reads, dropped) and the documented
        bound. `draw` is the exploration `random()`, `pick` the index
        `choice` takes, `testimony(w, q)` and `opinion(w, q)` the values
        `w.score_of(q)` returns in the testimony loop and in
        `_indirect_trust`. It explores an unknown provider with
        probability `_pr`; otherwise it exploits: the testimony loop and then
        the rescoring, each stopping at its first exception with what it
        wrote so far kept. */
    method ChooseProvider(draw: real, pick: nat, testimony: (nat, Provider) -> real, opinion: (nat, Provider) -> real)
      returns (r: Result<Provider>)
      requires Valid()
      modifies this`testimonies, base`scores
      ensures Valid()
      ensures !Counted(base.providers.keys, counts) ==> r == Err(KeyError) && unchanged(this, base)
      ensures old(Explores(draw)) ==> r == Ok(old(Explored(draw, pick))) && unchanged(this, base)
      ensures Counted(base.providers.keys, counts) && !old(Explores(draw)) ==>
        && TestimonyLoop(old(testimonies), testimonies, old(TestimonyError()), Ranked(), Consulted(), testimony)
        && (old(TestimonyError()).Some? ==> r == Err(old(TestimonyError()).value) && base.scores == old(base.scores))
        && (old(TestimonyError()).None? ==>
              Rescoring(old(base.scores), base.scores, r, base.providers.keys, counts, base.witnesses.keys, learning,
                        NMin(epsilon, smallTheta, logTerm), opinion))
    {
      var keys := base.providers.keys;
      if !Counted(keys, counts) {
        return Err(KeyError);
      }
      if Explores(draw) {
        return Ok(Explored(draw, pick));
      }
      var e := TestimonyPhase(testimony);
      if e.Some? {
        return Err(e.value);
      }
      r := ScoringPhase(opinion);
    }

    /** The testimony loop: the known providers ranked by direct trust,
        and for each of them every top witness appends its testimony. */
    method TestimonyPhase(testimony: (nat, Provider) -> real) returns (e: Option<Error>)
      requires Valid() && Counted(base.providers.keys, counts)
      modifies this`testimonies
      ensures Valid()
      ensures e == old(TestimonyError())
      ensures TestimonyLoop(old(testimonies), testimonies, e, Ranked(), Consulted(), testimony)
    {
      var keys := base.providers.keys;
      var known := ByExperience(keys, counts, true);
      ByExperienceDistinct(keys, counts, true);
      var top := TopWitnesses(base.witnesses, m);
      if top.Ok? {
        TopWitnessesSpec(base.witnesses, m);
      }
      testimonies, e := Testify(testimonies, known, counts, top, testimony);
    }

    /** The rescoring loop and the final pick; a complete pass leaves the
        cache holding exactly the registered providers. */
    method ScoringPhase(opinion: (nat, Provider) -> real) returns (r: Result<Provider>)
      requires Valid() && Counted(base.providers.keys, counts)
      modifies base`scores
      ensures Valid()
      ensures Rescoring(old(base.scores), base.scores, r, base.providers.keys, counts, base.witnesses.keys, learning,
                        NMin(epsilon, smallTheta, logTerm), opinion)
      ensures r.Ok? ==> forall q :: q in base.scores <==> q in base.providers.values
    {
      base.scores, r := Score(base.scores, base.providers.keys, counts, base.witnesses.keys, learning,
                              NMin(epsilon, smallTheta, logTerm), opinion);
    }
  }
}
