/** ITEA: a consumer that predicts the utility of each provider as the
    weighted average of the witnesses' opinions, picks a provider of maximal
    prediction, and learns the witness weights by discounting, on the chosen
    provider's row, every witness in proportion to its squared error. */
module Iteas {
  import opened Errors
  import opened Arith
  import opened Collections
  import opened Providers
  import opened Witnesses
  import opened RandomWitnesses
  import opened Consumers

  /** Entry-wise products of two arrays of one length. */
  function Pairwise(xs: seq<real>, ys: seq<real>): (r: seq<real>)
    requires |xs| == |ys|
    ensures |r| == |xs|
  {
    if xs == [] then []
    else
      var n := |xs| - 1;
      Pairwise(xs[..n], ys[..n]) + [xs[n] * ys[n]]
  }

  /** The i-th entry-wise product is the product of the i-th entries. */
  lemma {:induction false} PairwiseAt(xs: seq<real>, ys: seq<real>, i: nat)
    requires |xs| == |ys| && i < |xs|
    ensures Pairwise(xs, ys)[i] == xs[i] * ys[i]
  {
    var n := |xs| - 1;
    if i < n {
      PairwiseAt(xs[..n], ys[..n], i);
    }
  }

  /** Peeling off the last entry of both arrays. */
  lemma {:induction false} PairwiseSumLast(xs: seq<real>, ys: seq<real>, n: nat)
    requires |xs| == |ys| == n + 1
    ensures Sum(Pairwise(xs, ys)) == Sum(Pairwise(xs[..n], ys[..n])) + xs[n] * ys[n]
    ensures Sum(ys) == Sum(ys[..n]) + ys[n]
  {
    assert Pairwise(xs, ys)[..n] == Pairwise(xs[..n], ys[..n]);
  }

  /** `np.array(recs) * np.array(ws)`: equal lengths multiply pairwise, a
      length-one array is broadcast against the other, other lengths raise
      ValueError. */
  function Products(recs: seq<real>, ws: seq<real>): (r: Result<seq<real>>)
    ensures r.Err? <==> |recs| != |ws| && |recs| != 1 && |ws| != 1
    ensures r.Ok? ==> |r.value| == if |recs| == |ws| || |recs| == 1 then |ws| else |recs|
  {
    if |recs| == |ws| then Ok(Pairwise(recs, ws))
    else if |recs| == 1 then Ok(Pairwise(seq(|ws|, _ => recs[0]), ws))
    else if |ws| == 1 then Ok(Pairwise(recs, seq(|recs|, _ => ws[0])))
    else Err(ValueError)
  }

  /** `current_prediction`: the weighted sum over the weight sum. Python's
      `sum` of no products is the integer 0, so an empty product over a zero
      weight sum raises ZeroDivisionError, while a float64 sum over a zero
      weight sum gives NumPy's inf or nan. */
  function CurrentPrediction(recs: seq<real>, ws: seq<real>): (r: Result<real>)
    ensures r == Err(ValueError) <==> |recs| != |ws| && |recs| != 1 && |ws| != 1
    ensures |recs| == |ws| ==> (r == Err(ZeroDivision) <==> |recs| == 0)
    ensures |recs| == |ws| && |recs| > 0 ==> (r == Err(NotFinite) <==> Sum(ws) == 0.0)
  {
    match Products(recs, ws)
    case Err(e) => Err(e)
    case Ok(products) =>
      if Sum(ws) == 0.0 then (if |products| == 0 then Err(ZeroDivision) else Err(NotFinite))
      else Ok(Sum(products) / Sum(ws))
  }

  /** Witnesses that all recommend c predict c, whatever the weights. */
  lemma {:induction false} PredictionOfAgreement(recs: seq<real>, ws: seq<real>, c: real)
    requires |recs| == |ws| && Sum(ws) != 0.0
    requires forall i :: 0 <= i < |recs| ==> recs[i] == c
    ensures CurrentPrediction(recs, ws) == Ok(c)
  {
    AgreeingProducts(recs, ws, c);
    CancelFactor(Sum(Pairwise(recs, ws)), c, Sum(ws));
    WeightedMean(recs, ws);
  }

  /** Products of one recommendation c with each weight sum to c times the
      weight sum. */
  lemma {:induction false} AgreeingProducts(recs: seq<real>, ws: seq<real>, c: real)
    requires |recs| == |ws|
    requires forall i :: 0 <= i < |recs| ==> recs[i] == c
    ensures Sum(Pairwise(recs, ws)) == c * Sum(ws)
  {
    if |ws| > 0 {
      var n := |ws| - 1;
      AgreeingProducts(recs[..n], ws[..n], c);
      AgreeStep(recs, ws, c, n);
    }
  }

  lemma {:induction false} AgreeStep(recs: seq<real>, ws: seq<real>, c: real, n: nat)
    requires |recs| == |ws| == n + 1 && recs[n] == c
    requires Sum(Pairwise(recs[..n], ws[..n])) == c * Sum(ws[..n])
    ensures Sum(Pairwise(recs, ws)) == c * Sum(ws)
  {
    PairwiseSumLast(recs, ws, n);
    ScaleEntry(recs[n], c, ws[n], recs[n] * ws[n]);
    Distribute(c, Sum(ws[..n]), ws[n], Sum(ws));
  }

  /** With positive weights the prediction is defined and lies between the
      smallest and the largest recommendation. */
  lemma {:induction false} PredictionBetween(recs: seq<real>, ws: seq<real>, lo: real, hi: real)
    requires |recs| == |ws| > 0
    requires forall i :: 0 <= i < |ws| ==> ws[i] > 0.0
    requires forall i :: 0 <= i < |recs| ==> lo <= recs[i] <= hi
    ensures CurrentPrediction(recs, ws).Ok?
    ensures lo <= CurrentPrediction(recs, ws).value <= hi
  {
    SumPositive(ws);
    WeightedMean(recs, ws);
    WeightedMeanBetween(recs, ws, lo, hi);
  }

  lemma {:induction false} WeightedMeanBetween(recs: seq<real>, ws: seq<real>, lo: real, hi: real)
    requires |recs| == |ws| && Sum(ws) > 0.0
    requires forall i :: 0 <= i < |ws| ==> ws[i] >= 0.0 && lo <= recs[i] <= hi
    ensures lo <= Sum(Pairwise(recs, ws)) / Sum(ws) <= hi
  {
    WeightedSumAbove(recs, ws, lo);
    WeightedSumBelow(recs, ws, hi);
    QuotientBetween(Sum(Pairwise(recs, ws)), Sum(ws), lo, hi);
  }

  /** For equal lengths and a non-zero weight sum the prediction is the
      weighted sum over the weight sum. */
  lemma {:induction false} WeightedMean(recs: seq<real>, ws: seq<real>)
    requires |recs| == |ws| && Sum(ws) != 0.0
    ensures CurrentPrediction(recs, ws) == Ok(Sum(Pairwise(recs, ws)) / Sum(ws))
  {
  }

  lemma {:induction false} SumPositive(s: seq<real>)
    requires |s| > 0 && forall i :: 0 <= i < |s| ==> s[i] > 0.0
    ensures Sum(s) > 0.0
  {
    SumNonNegative(s[..|s| - 1]);
  }

  /** Recommendations of at least lo give a weighted sum of at least lo
      times the weight sum. */
  lemma {:induction false} WeightedSumAbove(recs: seq<real>, ws: seq<real>, lo: real)
    requires |recs| == |ws|
    requires forall i :: 0 <= i < |ws| ==> ws[i] >= 0.0 && lo <= recs[i]
    ensures lo * Sum(ws) <= Sum(Pairwise(recs, ws))
  {
    if |ws| > 0 {
      var n := |ws| - 1;
      WeightedSumAbove(recs[..n], ws[..n], lo);
      AboveStep(recs, ws, lo, n);
    }
  }

  lemma {:induction false} AboveStep(recs: seq<real>, ws: seq<real>, lo: real, n: nat)
    requires |recs| == |ws| == n + 1 && ws[n] >= 0.0 && lo <= recs[n]
    requires lo * Sum(ws[..n]) <= Sum(Pairwise(recs[..n], ws[..n]))
    ensures lo * Sum(ws) <= Sum(Pairwise(recs, ws))
  {
    PairwiseSumLast(recs, ws, n);
    ScaledAbove(recs[n], ws[n], recs[n] * ws[n], lo);
    StepAbove(Sum(ws[..n]), Sum(Pairwise(recs[..n], ws[..n])), ws[n], recs[n] * ws[n],
              Sum(ws), Sum(Pairwise(recs, ws)), lo);
  }

  /** Recommendations of at most hi give a weighted sum of at most hi
      times the weight sum. */
  lemma {:induction false} WeightedSumBelow(recs: seq<real>, ws: seq<real>, hi: real)
    requires |recs| == |ws|
    requires forall i :: 0 <= i < |ws| ==> ws[i] >= 0.0 && recs[i] <= hi
    ensures Sum(Pairwise(recs, ws)) <= hi * Sum(ws)
  {
    if |ws| > 0 {
      var n := |ws| - 1;
      WeightedSumBelow(recs[..n], ws[..n], hi);
      BelowStep(recs, ws, hi, n);
    }
  }

  lemma {:induction false} BelowStep(recs: seq<real>, ws: seq<real>, hi: real, n: nat)
    requires |recs| == |ws| == n + 1 && ws[n] >= 0.0 && recs[n] <= hi
    requires Sum(Pairwise(recs[..n], ws[..n])) <= hi * Sum(ws[..n])
    ensures Sum(Pairwise(recs, ws)) <= hi * Sum(ws)
  {
    PairwiseSumLast(recs, ws, n);
    ScaledBelow(recs[n], ws[n], recs[n] * ws[n], hi);
    StepBelow(Sum(ws[..n]), Sum(Pairwise(recs[..n], ws[..n])), ws[n], recs[n] * ws[n],
              Sum(ws), Sum(Pairwise(recs, ws)), hi);
  }

  /** `loss_function`: the squared error. */
  function Loss(actual: real, predicted: real): real
  {
    (actual - predicted) * (actual - predicted)
  }

  /** The loss is a non-negative, symmetric measure that vanishes exactly on
      a perfect prediction. */
  lemma LossIsDistance(actual: real, predicted: real)
    ensures Loss(actual, predicted) >= 0.0
    ensures Loss(actual, predicted) == Loss(predicted, actual)
    ensures Loss(actual, predicted) == 0.0 <==> actual == predicted
  {
    if actual != predicted {
      SquarePositive(actual - predicted, Loss(actual, predicted));
    }
    assert (actual - predicted) * (actual - predicted) == (predicted - actual) * (predicted - actual);
  }

  /** A weight row: witness id to weight, in the order of the witness
      dict it was built from. */
  type Row = ODict<nat, real>

  /** `row.values()`, in order. */
  function RowValues(row: Row): (vs: seq<real>)
    requires ValidDict(row)
    ensures |vs| == |row.keys|
    ensures forall i :: 0 <= i < |row.keys| ==> vs[i] == row.values[row.keys[i]]
  {
    seq(|row.keys|, i requires 0 <= i < |row.keys| => row.values[row.keys[i]])
  }

  /** `{w: 1 / K for w in witnesses}`. */
  function UniformRow(ws: seq<nat>, k: nat): (row: Row)
    requires k > 0
  {
    ODict(ws, map w | w in ws :: 1.0 / k as real)
  }

  /** A uniform row over distinct witnesses is a dict whose weights sum to
      the number of witnesses over K: 1 when K counts exactly them. */
  lemma {:induction false} UniformRowSum(ws: seq<nat>, k: nat)
    requires k > 0 && Distinct(ws)
    ensures ValidDict(UniformRow(ws, k))
    ensures Sum(RowValues(UniformRow(ws, k))) == |ws| as real / k as real
    ensures |ws| == k ==> Sum(RowValues(UniformRow(ws, k))) == 1.0
  {
    var vs := RowValues(UniformRow(ws, k));
    SumConst(vs, 1.0 / k as real);
    Reciprocal(k as real);
  }

  /** The row after one `update`: every witness of ws has its weight
      multiplied by its factor; every other entry and the order are kept. */
  function Reweighted(row: Row, ws: seq<nat>, factor: nat -> real): Row
  {
    ODict(row.keys, map w | w in row.values :: if w in ws then row.values[w] * factor(w) else row.values[w])
  }

  /** `math.exp(-lr * loss(actual, opinion))`, with exp an input. */
  function Discount(exp: real -> real, lr: real, actual: real, opinion: real): real
  {
    exp(-lr * Loss(actual, opinion))
  }

  /** With a non-negative rate and an exp that maps non-positive arguments
      into (0, 1], every discount lies in (0, 1]. */
  lemma DiscountInUnitInterval(exp: real -> real, lr: real, actual: real, opinion: real)
    requires lr >= 0.0
    requires forall x: real :: x <= 0.0 ==> 0.0 < exp(x) <= 1.0
    ensures 0.0 < Discount(exp, lr, actual, opinion) <= 1.0
  {
    LossIsDistance(actual, opinion);
    MulSigns(lr, Loss(actual, opinion));
  }

  /** With rate 0 every discount is exp(0) = 1. */
  lemma ZeroRateNoDiscount(exp: real -> real, actual: real, opinion: real)
    requires exp(0.0) == 1.0
    ensures Discount(exp, 0.0, actual, opinion) == 1.0
  {
    assert -0.0 * Loss(actual, opinion) == 0.0;
  }

  /** Discounts in (0, 1] keep a row a dict with the same keys in the same
      order, keep positive weights positive and never raise a weight. */
  lemma {:induction false} ReweightedShrinks(row: Row, ws: seq<nat>, factor: nat -> real)
    requires ValidDict(row)
    requires forall w :: w in ws ==> 0.0 < factor(w) <= 1.0
    requires forall w :: w in row.values ==> row.values[w] > 0.0
    ensures var r := Reweighted(row, ws, factor);
      && ValidDict(r) && r.keys == row.keys
      && (forall w :: w in r.values ==> 0.0 < r.values[w] <= row.values[w])
  {
    var r := Reweighted(row, ws, factor);
    forall w | w in r.values
      ensures 0.0 < r.values[w] <= row.values[w]
    {
      if w in ws {
        PositiveProduct(row.values[w], factor(w), r.values[w]);
        MulSigns(row.values[w], 1.0 - factor(w));
      }
    }
  }

  /** Unit discounts leave a row as it was. */
  lemma ReweightedByOne(row: Row, ws: seq<nat>, factor: nat -> real)
    requires forall w :: w in ws ==> factor(w) == 1.0
    ensures Reweighted(row, ws, factor) == row
  {
    var r := Reweighted(row, ws, factor);
    assert r.values == row.values;
  }

  /** What each registered witness says about p. */
  function Recommendations(ws: seq<nat>, p: Provider, opinion: (nat, Provider) -> real): seq<real>
  {
    seq(|ws|, i requires 0 <= i < |ws| => opinion(ws[i], p))
  }

  /** The weight table: None stands for the empty list the constructor
      stores, which no provider can index. */
  type Weights = Option<map<Provider, Row>>

  ghost predicate RowsValid(weights: Weights)
  {
    weights.Some? ==> forall p :: p in weights.value ==> ValidDict(weights.value[p])
  }

  /** The prediction for p: indexing the list fails with TypeError, a
      provider without a row with KeyError. */
  function Prediction(weights: Weights, ws: seq<nat>, p: Provider, opinion: (nat, Provider) -> real): (r: Result<real>)
    requires RowsValid(weights)
    ensures weights.None? ==> r == Err(TypeError)
    ensures weights.Some? && p !in weights.value ==> r == Err(KeyError)
    ensures weights.Some? && p in weights.value ==>
      r == CurrentPrediction(Recommendations(ws, p, opinion), RowValues(weights.value[p]))
  {
    if weights.None? then Err(TypeError)
    else if p !in weights.value then Err(KeyError)
    else CurrentPrediction(Recommendations(ws, p, opinion), RowValues(weights.value[p]))
  }

  /** The prediction loop over the registered providers: every prediction
      in order, or the error of the first provider that has none. */
  function Predictions(keys: seq<Provider>, weights: Weights, ws: seq<nat>, opinion: (nat, Provider) -> real)
    : (r: Result<seq<real>>)
    requires RowsValid(weights)
    ensures r.Ok? ==> |r.value| == |keys|
    ensures r.Ok? ==> forall i :: 0 <= i < |keys| ==> Prediction(weights, ws, keys[i], opinion) == Ok(r.value[i])
  {
    if keys == [] then Ok([])
    else
      var n := |keys| - 1;
      match Predictions(keys[..n], weights, ws, opinion)
      case Err(e) => Err(e)
      case Ok(preds) =>
        match Prediction(weights, ws, keys[n], opinion)
        case Err(e) => Err(e)
        case Ok(v) => Ok(preds + [v])
  }

  /** Once a prefix fails, every longer list fails with the same error. */
  lemma {:induction false} PredictionsKeepError(keys: seq<Provider>, weights: Weights, ws: seq<nat>,
                                                opinion: (nat, Provider) -> real, i: nat)
    requires RowsValid(weights) && i <= |keys|
    requires Predictions(keys[..i], weights, ws, opinion).Err?
    ensures Predictions(keys, weights, ws, opinion) == Predictions(keys[..i], weights, ws, opinion)
    decreases |keys| - i
  {
    if i < |keys| {
      assert keys[..i + 1][..i] == keys[..i];
      PredictionsKeepError(keys, weights, ws, opinion, i + 1);
    } else {
      assert keys[..i] == keys;
    }
  }

  /** `max(predictions.values())`. */
  function MaxPrediction(preds: seq<real>): (top: real)
    requires |preds| > 0
    ensures forall i :: 0 <= i < |preds| ==> preds[i] <= top
    ensures exists i :: 0 <= i < |preds| && preds[i] == top
  {
    preds[FirstMaxIndex(preds)]
  }

  /** `[k for k, v in predictions.items() if v == top]`. */
  function Maximal(keys: seq<Provider>, preds: seq<real>, top: real): (cands: seq<Provider>)
    requires |keys| == |preds|
    ensures forall q :: q in cands <==> exists i :: 0 <= i < |keys| && keys[i] == q && preds[i] == top
  {
    if keys == [] then []
    else
      var n := |keys| - 1;
      var init := Maximal(keys[..n], preds[..n], top);
      assert forall i :: 0 <= i < n ==> keys[..n][i] == keys[i] && preds[..n][i] == preds[i];
      if preds[n] == top then init + [keys[n]] else init
  }

  /** The pick among the maximal providers, `pick` standing for
      `random.choice`; no providers at all make `max` raise ValueError. The
      provider picked has a maximal prediction. */
  function Choose(keys: seq<Provider>, preds: seq<real>, pick: nat): (r: Result<Provider>)
    requires |keys| == |preds|
    ensures |keys| == 0 <==> r == Err(ValueError)
    ensures r.Ok? ==> exists i :: 0 <= i < |keys| && keys[i] == r.value && preds[i] == MaxPrediction(preds)
    ensures r.Ok? ==> exists i :: 0 <= i < |keys| && keys[i] == r.value &&
                                  forall j :: 0 <= j < |preds| ==> preds[j] <= preds[i]
  {
    if |keys| == 0 then Err(ValueError)
    else
      var top := MaxPrediction(preds);
      var best := FirstMaxIndex(preds);
      var cands := Maximal(keys, preds, top);
      assert keys[best] in cands;
      var q := cands[pick % |cands|];
      assert q in cands;
      Ok(q)
  }

  /** Conversely every provider of maximal prediction is picked by some
      draw: the choice ranges over all of them. */
  lemma EveryMaximalCanBeChosen(keys: seq<Provider>, preds: seq<real>, i: nat)
    requires |keys| == |preds| && i < |keys|
    requires forall j :: 0 <= j < |preds| ==> preds[j] <= preds[i]
    ensures exists pick: nat :: Choose(keys, preds, pick) == Ok(keys[i])
  {
    var top := MaxPrediction(preds);
    var cands := Maximal(keys, preds, top);
    assert keys[i] in cands by {
      assert preds[i] == top;
    }
    var k :| 0 <= k < |cands| && cands[k] == keys[i];
    assert k % |cands| == k;
    assert Choose(keys, preds, k) == Ok(cands[k % |cands|]);
  }

  /** The interaction tallies `preprocess` attaches to each witness: per
      provider, good and bad interactions. */
  type Tallies = map<Witness, map<Provider, Counts>>

  /** The tallies after n iterations of the preprocessing loop: iteration i
      draws the witness at `pickWitness(i)`, the provider at
      `pickProvider(i)` and the service with `draw(i)`, and counts the
      interaction as good when the service reaches the threshold; drawing
      from an empty list raises IndexError. */
  function Tally(ws: seq<Witness>, ps: seq<Provider>, threshold: real, pickWitness: nat -> nat,
                 pickProvider: nat -> nat, draw: nat -> real, n: nat): (t: Result<Tallies>)
    ensures t.Err? <==> n > 0 && (|ws| == 0 || |ps| == 0)
    ensures t.Err? ==> t.error == IndexError
    ensures t.Ok? ==> t.value.Keys == Members(ws)
    ensures t.Ok? ==> forall i, p :: 0 <= i < |ws| ==> (p in t.value[ws[i]] <==> p in ps)
  {
    if n == 0 then Ok(map i | 0 <= i < |ws| :: ws[i] := map p | p in ps :: Counts(0, 0))
    else if |ws| == 0 || |ps| == 0 then Err(IndexError)
    else
      var t := Tally(ws, ps, threshold, pickWitness, pickProvider, draw, n - 1).value;
      var wi := pickWitness(n - 1) % |ws|;
      var w := ws[wi];
      var p := ps[pickProvider(n - 1) % |ps|];
      assert w in Members(ws) && p in ps;
      assert w in t && p in t[w];
      Ok(t[w := t[w][p := Bumped(t[w][p], GetService(p, draw(n - 1)) >= threshold)]])
  }

  /** One more good or bad interaction. */
  function Bumped(c: Counts, good: bool): (d: Counts)
    ensures d.positive + d.negative == c.positive + c.negative + 1
    ensures good ==> d.positive == c.positive + 1 && d.negative == c.negative
    ensures !good ==> d.negative == c.negative + 1 && d.positive == c.positive
  {
    if good then Counts(c.positive + 1, c.negative) else Counts(c.positive, c.negative + 1)
  }

  /** The witnesses of a list, as a set. */
  function Members(ws: seq<Witness>): set<Witness>
  {
    set i | 0 <= i < |ws| :: ws[i]
  }

  /** t has a tally for every witness of ws and provider of ps. */
  predicate Covers(t: Tallies, ws: seq<Witness>, ps: seq<Provider>)
  {
    forall i :: 0 <= i < |ws| ==> ws[i] in t && forall p :: p in ps ==> p in t[ws[i]]
  }

  /** `(good + 1) / (good + bad + 2)`: the beta reputation of the tally. */
  function Laplace(c: Counts): (s: real)
    ensures Brs(c.positive as real, c.negative as real) == Ok(s)
    ensures 0.0 < s < 1.0
  {
    BrsInUnitInterval(c.positive as real, c.negative as real);
    (c.positive as real + 1.0) / (c.positive as real + c.negative as real + 2.0)
  }

  /** The scores `preprocess` writes for one witness. */
  function LaplaceScores(row: map<Provider, Counts>, ps: seq<Provider>): map<Provider, real>
    requires forall p :: p in ps ==> p in row
  {
    map p | p in ps :: Laplace(row[p])
  }

  /** Interactions counted for the providers of ps. */
  function RowTotal(row: map<Provider, Counts>, ps: seq<Provider>): nat
    requires forall p :: p in ps ==> p in row
  {
    if ps == [] then 0
    else RowTotal(row, ps[..|ps| - 1]) + row[ps[|ps| - 1]].positive + row[ps[|ps| - 1]].negative
  }

  /** Interactions counted for the witnesses of ws and the providers of ps. */
  function TallyTotal(t: Tallies, ws: seq<Witness>, ps: seq<Provider>): nat
    requires Covers(t, ws, ps)
  {
    if ws == [] then 0 else TallyTotal(t, ws[..|ws| - 1], ps) + RowTotal(t[ws[|ws| - 1]], ps)
  }

  lemma {:induction false} RowTotalSkips(row: map<Provider, Counts>, ps: seq<Provider>, p: Provider, c: Counts)
    requires forall q :: q in ps ==> q in row
    requires p !in ps
    ensures RowTotal(row[p := c], ps) == RowTotal(row, ps)
  {
    if ps != [] {
      RowTotalSkips(row, ps[..|ps| - 1], p, c);
    }
  }

  lemma {:induction false} RowTotalBump(row: map<Provider, Counts>, ps: seq<Provider>, p: Provider, c: Counts)
    requires forall q :: q in ps ==> q in row
    requires Distinct(ps) && p in ps
    requires c.positive + c.negative == row[p].positive + row[p].negative + 1
    ensures RowTotal(row[p := c], ps) == RowTotal(row, ps) + 1
  {
    var n := |ps| - 1;
    if ps[n] == p {
      assert p !in ps[..n];
      RowTotalSkips(row, ps[..n], p, c);
    } else {
      assert p in ps[..n];
      RowTotalBump(row, ps[..n], p, c);
    }
  }

  lemma {:induction false} TallyTotalSkips(t: Tallies, ws: seq<Witness>, ps: seq<Provider>, w: Witness,
                                           row: map<Provider, Counts>)
    requires Covers(t, ws, ps)
    requires w !in ws
    ensures TallyTotal(t[w := row], ws, ps) == TallyTotal(t, ws, ps)
  {
    if ws != [] {
      TallyTotalSkips(t, ws[..|ws| - 1], ps, w, row);
    }
  }

  lemma {:induction false} TallyTotalBump(t: Tallies, ws: seq<Witness>, ps: seq<Provider>, w: Witness,
                                          row: map<Provider, Counts>)
    requires Covers(t, ws, ps)
    requires forall p :: p in ps ==> p in row
    requires Distinct(ws) && w in ws
    requires RowTotal(row, ps) == RowTotal(t[w], ps) + 1
    ensures TallyTotal(t[w := row], ws, ps) == TallyTotal(t, ws, ps) + 1
  {
    var n := |ws| - 1;
    if ws[n] == w {
      assert w !in ws[..n];
      TallyTotalSkips(t, ws[..n], ps, w, row);
    } else {
      assert w in ws[..n];
      TallyTotalBump(t, ws[..n], ps, w, row);
    }
  }

  lemma {:induction false} ZeroTallyTotal(t: Tallies, ws: seq<Witness>, ps: seq<Provider>)
    requires Covers(t, ws, ps)
    requires forall i, p :: 0 <= i < |ws| && p in ps ==> t[ws[i]][p] == Counts(0, 0)
    ensures TallyTotal(t, ws, ps) == 0
  {
    if ws != [] {
      ZeroTallyTotal(t, ws[..|ws| - 1], ps);
      ZeroRowTotal(t[ws[|ws| - 1]], ps);
    }
  }

  lemma {:induction false} ZeroRowTotal(row: map<Provider, Counts>, ps: seq<Provider>)
    requires forall p :: p in ps ==> p in row && row[p] == Counts(0, 0)
    ensures RowTotal(row, ps) == 0
  {
    if ps != [] {
      ZeroRowTotal(row, ps[..|ps| - 1]);
    }
  }

  /** Every iteration counts exactly one interaction: over distinct
      witnesses and providers, the tallies add up to the number of
      iterations. */
  lemma {:induction false} TallyCountsEveryIteration(ws: seq<Witness>, ps: seq<Provider>, threshold: real,
                                                     pickWitness: nat -> nat, pickProvider: nat -> nat,
                                                     draw: nat -> real, n: nat)
    requires Distinct(ws) && Distinct(ps)
    requires Tally(ws, ps, threshold, pickWitness, pickProvider, draw, n).Ok?
    ensures TallyTotal(Tally(ws, ps, threshold, pickWitness, pickProvider, draw, n).value, ws, ps) == n
  {
    if n == 0 {
      ZeroTallyTotal(Tally(ws, ps, threshold, pickWitness, pickProvider, draw, 0).value, ws, ps);
    } else {
      TallyCountsEveryIteration(ws, ps, threshold, pickWitness, pickProvider, draw, n - 1);
      var t := Tally(ws, ps, threshold, pickWitness, pickProvider, draw, n - 1).value;
      var w := ws[pickWitness(n - 1) % |ws|];
      var p := ps[pickProvider(n - 1) % |ps|];
      var row := Tally(ws, ps, threshold, pickWitness, pickProvider, draw, n).value[w];
      assert row == t[w][p := row[p]];
      RowTotalBump(t[w], ps, p, row[p]);
      TallyTotalBump(t, ws, ps, w, row);
    }
  }

  /** `sqrt(8 * log(K) / T)`, with log and sqrt inputs: no witnesses make
      `log` raise ValueError, T = 0 divides by zero, and a negative argument
      makes `sqrt` raise ValueError. */
  function LearningRate(k: nat, horizon: real, log: real -> real, sqrt: real -> real): (r: Result<real>)
    ensures r == Err(ValueError) <==> k == 0 || (horizon != 0.0 && 8.0 * log(k as real) / horizon < 0.0)
    ensures r == Err(ZeroDivision) <==> k > 0 && horizon == 0.0
    ensures r.Ok? ==> r.value == sqrt(8.0 * log(k as real) / horizon)
  {
    if k == 0 then Err(ValueError)
    else if horizon == 0.0 then Err(ZeroDivision)
    else
      var x := 8.0 * log(k as real) / horizon;
      if x < 0.0 then Err(ValueError) else Ok(sqrt(x))
  }

  /** A single witness (log 1 = 0) gets learning rate 0 whatever T is. */
  lemma SingleWitnessRate(horizon: real, log: real -> real, sqrt: real -> real)
    requires horizon != 0.0 && log(1.0) == 0.0 && sqrt(0.0) == 0.0
    ensures LearningRate(1, horizon, log, sqrt) == Ok(0.0)
  {
    assert 8.0 * log(1 as real) / horizon == 0.0;
  }

  /** The index of the first witness of ws without a weight in row, or |ws|
      when all have one. */
  function FirstMissing(ws: seq<nat>, row: Row): (i: nat)
    ensures i <= |ws|
    ensures forall j :: 0 <= j < i ==> ws[j] in row.values
    ensures i < |ws| ==> ws[i] !in row.values
  {
    if ws == [] then 0
    else if ws[0] !in row.values then 0
    else 1 + FirstMissing(ws[1..], row)
  }

  /** The factor of witness w for the update of provider h's row. */
  function WitnessFactor(exp: real -> real, lr: real, actual: real, opinion: (nat, Provider) -> real,
                         h: Provider): nat -> real
  {
    (w: nat) => Discount(exp, lr, actual, opinion(w, h))
  }

  /** Reweighting one more witness is one dict assignment. */
  lemma {:induction false} ReweightedStep(row: Row, ws: seq<nat>, i: nat, factor: nat -> real, cur: Row)
    requires ValidDict(row) && Distinct(ws) && i < |ws| && ws[i] in row.values
    requires cur == Reweighted(row, ws[..i], factor)
    ensures Reweighted(row, ws[..i + 1], factor) == Put<nat, real>(cur, ws[i], cur.values[ws[i]] * factor(ws[i]))
  {
    var next := Reweighted(row, ws[..i + 1], factor);
    assert ws[i] !in ws[..i];
    assert forall w :: w in ws[..i + 1] <==> w in ws[..i] || w == ws[i];
    var v := cur.values[ws[i]] * factor(ws[i]);
    assert v == row.values[ws[i]] * factor(ws[i]);
    var put := Put<nat, real>(cur, ws[i], v);
    assert next.values == put.values;
  }

  /** The loop of `update` over the witnesses: each witness's weight in
      the row is multiplied by its factor, in order, up to the first
      witness the row lacks, where stop is. */
  method ReweightRow(row: Row, ws: seq<nat>, factor: nat -> real) returns (cur: Row, stop: nat)
    requires ValidDict(row) && Distinct(ws)
    ensures stop == FirstMissing(ws, row)
    ensures cur == Reweighted(row, ws[..stop], factor) && ValidDict(cur)
  {
    cur := row;
    stop := 0;
    ReweightedByOne(row, ws[..0], factor);
    while stop < |ws|
      invariant 0 <= stop <= |ws|
      invariant forall j :: 0 <= j < stop ==> ws[j] in row.values
      invariant cur == Reweighted(row, ws[..stop], factor) && ValidDict(cur)
    {
      if ws[stop] !in cur.values {
        break;
      }
      assert ws[stop] in row.values;
      ReweightedStep(row, ws, stop, factor, cur);
      cur := Put<nat, real>(cur, ws[stop], cur.values[ws[stop]] * factor(ws[stop]));
      stop := stop + 1;
    }
    assert stop == FirstMissing(ws, row);
  }

  /** The choice `choose_provider` and `update` make: the prediction loop's
      error, ValueError without providers, or a provider of maximal
      prediction picked by `pick`. */
  function Chosen(keys: seq<Provider>, weights: Weights, ws: seq<nat>, opinion: (nat, Provider) -> real,
                  pick: nat): (r: Result<Provider>)
    requires RowsValid(weights)
    ensures Predictions(keys, weights, ws, opinion).Err? ==> r == Err(Predictions(keys, weights, ws, opinion).error)
    ensures Predictions(keys, weights, ws, opinion).Ok? ==> r == Choose(keys, Predictions(keys, weights, ws, opinion).value, pick)
    ensures r.Ok? ==> Predictions(keys, weights, ws, opinion).Ok? && keys != []
    ensures r.Ok? ==> weights.Some? && r.value in weights.value
  {
    match Predictions(keys, weights, ws, opinion)
    case Err(e) => Err(e)
    case Ok(preds) =>
      var c := Choose(keys, preds, pick);
      if c.Ok? then
        var i :| 0 <= i < |keys| && keys[i] == c.value && forall j :: 0 <= j < |preds| ==> preds[j] <= preds[i];
        assert Prediction(weights, ws, keys[i], opinion) == Ok(preds[i]);
        c
      else c
  }

  /** Every weight of every row is positive. */
  ghost predicate PositiveRows(weights: Weights)
  {
    weights.Some? ==> forall p, w :: p in weights.value && w in weights.value[p].values ==> weights.value[p].values[w] > 0.0
  }

  /** exp maps every non-positive argument into (0, 1]. */
  ghost predicate ShrinksNonPositive(exp: real -> real)
  {
    forall x: real :: x <= 0.0 ==> 0.0 < exp(x) <= 1.0
  }

  class Itea {
    const base: Consumer
    /** `T`, the horizon in the learning rate. */
    const horizon: real
    var learningRate: Option<real>
    /** The last score observed per provider; None before registration. */
    var interactions: Option<map<Provider, real>>
    /** `K`, the number of witnesses of the last registration. */
    var k: Option<nat>
    var weights: Weights
    var loss: seq<real>

    /** The rate is set before the weights, so weights without a rate
        never occur. */
    ghost predicate Valid()
      reads this, base
    {
      && base.Valid()
      && RowsValid(weights)
      && (learningRate.None? ==> weights.None?)
    }

    constructor (horizon: real)
      ensures Valid() && fresh(base)
      ensures base.witnesses.keys == [] && base.providers.keys == [] && base.scores == map[]
      ensures this.horizon == horizon
      ensures learningRate == None && interactions == None && k == None && weights == None && loss == []
    {
      base := new Consumer();
      this.horizon := horizon;
      learningRate := None;
      interactions := None;
      k := None;
      weights := None;
      loss := [];
    }

    /** `register_witnesses`. The base registration and K happen first;
        when the rate cannot be computed, the rate and the weights keep
        their values. Otherwise every registered provider gets a uniform
        row over all registered witnesses, and the rows of providers not
        registered are gone. */
    method RegisterWitnesses(ws: seq<nat>, log: real -> real, sqrt: real -> real) returns (r: Outcome)
      requires Valid()
      modifies base`witnesses, this`k, this`learningRate, this`weights
      ensures Valid()
      ensures base.witnesses == PutAll(old(base.witnesses), ws, None)
      ensures k == Some(|ws|)
      ensures var rate := LearningRate(|ws|, horizon, log, sqrt);
        && (rate.Err? ==> r == Fail(rate.error) && learningRate == old(learningRate) && weights == old(weights))
        && (rate.Ok? ==> r == Pass && learningRate == Some(rate.value))
      ensures r == Pass ==> && weights.Some?
                            && (forall p :: p in weights.value <==> p in base.providers.values)
                            && forall p :: p in weights.value ==> weights.value[p] == UniformRow(base.witnesses.keys, |ws|)
      ensures r == Pass && |base.witnesses.keys| == |ws| ==>
        forall p :: p in weights.value ==> Sum(RowValues(weights.value[p])) == 1.0
    {
      base.RegisterWitnesses(ws);
      k := Some(|ws|);
      var rate := LearningRate(|ws|, horizon, log, sqrt);
      if rate.Err? {
        return Fail(rate.error);
      }
      learningRate := Some(rate.value);
      UniformRowSum(base.witnesses.keys, |ws|);
      var row := UniformRow(base.witnesses.keys, |ws|);
      weights := Some(map p | p in base.providers.values :: row);
      r := Pass;
    }

    /** `register_providers`: the base registration, then a fresh
        interaction dict with 0 for each given provider; earlier entries
        are dropped. */
    method RegisterProviders(ps: seq<Provider>)
      requires Valid()
      modifies base`providers, this`interactions
      ensures Valid()
      ensures base.providers == PutAll(old(base.providers), ps, None)
      ensures interactions.Some?
      ensures forall p :: p in interactions.value <==> p in ps
      ensures forall p :: p in interactions.value ==> interactions.value[p] == 0.0
    {
      base.RegisterProviders(ps);
      interactions := Some(map p | p in ps :: 0.0);
    }

    /** `update_provider`: records the score for any provider; before
        provider registration the None raises TypeError. */
    method UpdateProvider(p: Provider, score: real) returns (r: Outcome)
      modifies this`interactions
      ensures old(interactions).None? ==> r == Fail(TypeError) && interactions == None
      ensures old(interactions).Some? ==> r == Pass && interactions == Some(old(interactions).value[p := score])
    {
      if interactions.None? {
        return Fail(TypeError);
      }
      interactions := Some(interactions.value[p := score]);
      r := Pass;
    }

    /** The inner loop: the opinion of every registered witness about p,
        in witness order. */
    method Recommend(p: Provider, opinion: (nat, Provider) -> real) returns (recs: seq<real>)
      ensures recs == Recommendations(base.witnesses.keys, p, opinion)
    {
      var ws := base.witnesses.keys;
      recs := [];
      for j := 0 to |ws|
        invariant |recs| == j
        invariant forall i :: 0 <= i < j ==> recs[i] == opinion(ws[i], p)
      {
        recs := recs + [opinion(ws[j], p)];
      }
    }

    /** The prediction loop shared by `choose_provider` and `update`. */
    method PredictAll(opinion: (nat, Provider) -> real) returns (r: Result<seq<real>>)
      requires Valid()
      ensures r == Predictions(base.providers.keys, weights, base.witnesses.keys, opinion)
    {
      var keys := base.providers.keys;
      var preds: seq<real> := [];
      for i := 0 to |keys|
        invariant Predictions(keys[..i], weights, base.witnesses.keys, opinion) == Ok(preds)
      {
        assert keys[..i + 1][..i] == keys[..i];
        var recs := Recommend(keys[i], opinion);
        var v: Result<real>;
        if weights.None? {
          v := Err(TypeError);
        } else if keys[i] !in weights.value {
          v := Err(KeyError);
        } else {
          v := CurrentPrediction(recs, RowValues(weights.value[keys[i]]));
        }
        if v.Err? {
          PredictionsKeepError(keys, weights, base.witnesses.keys, opinion, i + 1);
          return Err(v.error);
        }
        preds := preds + [v.value];
      }
      assert keys[..|keys|] == keys;
      r := Ok(preds);
    }

    /** `choose_provider`, with `pick` standing for `random.choice`. */
    method ChooseProvider(opinion: (nat, Provider) -> real, pick: nat) returns (r: Result<Provider>)
      requires Valid()
      ensures r == Chosen(base.providers.keys, weights, base.witnesses.keys, opinion, pick)
    {
      var preds := PredictAll(opinion);
      if preds.Err? {
        return Err(preds.error);
      }
      r := Choose(base.providers.keys, preds.value, pick);
    }

    /** `update`: the choice of `choose_provider`, then the squared error
        of the maximal prediction against the observed score is logged, and
        every witness's weight on the chosen provider's row is multiplied by
        `exp(-rate * its squared error)`, witness by witness. A witness
        without a weight raises KeyError and keeps the updates made before
        it. Only the chosen row changes. */
    method Update(opinion: (nat, Provider) -> real, pick: nat, exp: real -> real) returns (r: Outcome)
      requires Valid()
      modifies this`weights, this`loss
      ensures Valid()
      ensures var c := old(Chosen(base.providers.keys, weights, base.witnesses.keys, opinion, pick));
        c.Err? ==> r == Fail(c.error) && weights == old(weights) && loss == old(loss)
      ensures var c := old(Chosen(base.providers.keys, weights, base.witnesses.keys, opinion, pick));
        c.Ok? && (old(interactions).None? || c.value !in old(interactions).value) ==>
          && r == Fail(if old(interactions).None? then TypeError else KeyError)
          && weights == old(weights) && loss == old(loss)
      ensures var c := old(Chosen(base.providers.keys, weights, base.witnesses.keys, opinion, pick));
        c.Ok? && old(interactions).Some? && c.value in old(interactions).value ==>
          var h := c.value;
          var actual := old(interactions).value[h];
          var preds := old(Predictions(base.providers.keys, weights, base.witnesses.keys, opinion)).value;
          var row := old(weights).value[h];
          var stop := FirstMissing(base.witnesses.keys, row);
          var factor := WitnessFactor(exp, old(learningRate).value, actual, opinion, h);
          && loss == old(loss) + [Loss(actual, MaxPrediction(preds))]
          && weights == Some(old(weights).value[h := Reweighted(row, base.witnesses.keys[..stop], factor)])
          && r == if stop < |base.witnesses.keys| then Fail(KeyError) else Pass
      ensures old(PositiveRows(weights)) && ShrinksNonPositive(exp) && old(learningRate).Some? && old(learningRate).value >= 0.0 ==>
        PositiveRows(weights)
      ensures old(learningRate) == Some(0.0) && exp(0.0) == 1.0 ==> weights == old(weights)
    {
      ghost var chosen := Chosen(base.providers.keys, weights, base.witnesses.keys, opinion, pick);
      var preds := PredictAll(opinion);
      if preds.Err? {
        return Fail(preds.error);
      }
      var c := Choose(base.providers.keys, preds.value, pick);
      if c.Err? {
        return Fail(c.error);
      }
      assert c == chosen;
      r := Observe(c.value, preds.value, opinion, exp);
    }

    /** The part of `update` after the choice of h, whose predictions were
        preds: h's observed score is looked up, the loss is logged and the
        weights learn from it. */
    method Observe(h: Provider, preds: seq<real>, opinion: (nat, Provider) -> real, exp: real -> real)
      returns (r: Outcome)
      requires Valid() && weights.Some? && h in weights.value && preds != []
      modifies this`weights, this`loss
      ensures Valid()
      ensures old(interactions).None? || h !in old(interactions).value ==>
        && r == Fail(if old(interactions).None? then TypeError else KeyError)
        && weights == old(weights) && loss == old(loss)
      ensures old(interactions).Some? && h in old(interactions).value ==>
        var actual := old(interactions).value[h];
        var row := old(weights).value[h];
        var stop := FirstMissing(base.witnesses.keys, row);
        var factor := WitnessFactor(exp, old(learningRate).value, actual, opinion, h);
        && loss == old(loss) + [Loss(actual, MaxPrediction(preds))]
        && weights == Some(old(weights).value[h := Reweighted(row, base.witnesses.keys[..stop], factor)])
        && r == if stop < |base.witnesses.keys| then Fail(KeyError) else Pass
      ensures old(PositiveRows(weights)) && ShrinksNonPositive(exp) && old(learningRate).Some? && old(learningRate).value >= 0.0 ==>
        PositiveRows(weights)
      ensures old(learningRate) == Some(0.0) && exp(0.0) == 1.0 ==> weights == old(weights)
    {
      if interactions.None? {
        return Fail(TypeError);
      }
      if h !in interactions.value {
        return Fail(KeyError);
      }
      var actual := interactions.value[h];
      loss := loss + [Loss(actual, MaxPrediction(preds))];
      r := Learn(h, actual, opinion, exp);
    }

    /** The learning step of `update` for the chosen provider h and its
        observed score. */
    method Learn(h: Provider, actual: real, opinion: (nat, Provider) -> real, exp: real -> real) returns (r: Outcome)
      requires Valid() && weights.Some? && h in weights.value
      modifies this`weights
      ensures Valid()
      ensures learningRate == old(learningRate)
      ensures var row := old(weights).value[h];
        var stop := FirstMissing(base.witnesses.keys, row);
        var factor := WitnessFactor(exp, learningRate.value, actual, opinion, h);
        && weights == Some(old(weights).value[h := Reweighted(row, base.witnesses.keys[..stop], factor)])
        && r == if stop < |base.witnesses.keys| then Fail(KeyError) else Pass
      ensures old(PositiveRows(weights)) && ShrinksNonPositive(exp) && learningRate.value >= 0.0 ==>
        PositiveRows(weights)
      ensures learningRate == Some(0.0) && exp(0.0) == 1.0 ==> weights == old(weights)
    {
      var factor := WitnessFactor(exp, learningRate.value, actual, opinion, h);
      ghost var row := weights.value[h];
      ghost var prefix := base.witnesses.keys[..FirstMissing(base.witnesses.keys, row)];
      r := Reweight(h, factor);
      if PositiveRows(old(weights)) && ShrinksNonPositive(exp) && learningRate.value >= 0.0 {
        forall w | w in prefix
          ensures 0.0 < factor(w) <= 1.0
        {
          DiscountInUnitInterval(exp, learningRate.value, actual, opinion(w, h));
        }
        KeepsPositive(old(weights).value, h, row, prefix, factor);
      }
      if learningRate == Some(0.0) && exp(0.0) == 1.0 {
        forall w | w in prefix
          ensures factor(w) == 1.0
        {
          ZeroRateNoDiscount(exp, actual, opinion(w, h));
        }
        ReweightedByOne(row, prefix, factor);
        assert old(weights).value[h := row] == old(weights).value;
      }
    }

    /** The witness loop of `update` on the row of h: each registered
        witness in turn has its weight multiplied by its factor, until one
        without a weight raises KeyError. */
    method Reweight(h: Provider, factor: nat -> real) returns (r: Outcome)
      requires Valid() && weights.Some? && h in weights.value
      modifies this`weights
      ensures Valid()
      ensures learningRate == old(learningRate)
      ensures var row := old(weights).value[h];
        var stop := FirstMissing(base.witnesses.keys, row);
        && weights == Some(old(weights).value[h := Reweighted(row, base.witnesses.keys[..stop], factor)])
        && r == if stop < |base.witnesses.keys| then Fail(KeyError) else Pass
    {
      var w0 := weights.value;
      var cur, stop := ReweightRow(w0[h], base.witnesses.keys, factor);
      weights := Some(w0[h := cur]);
      r := if stop < |base.witnesses.keys| then Fail(KeyError) else Pass;
    }
  }

  /** Reweighting one row with factors in (0, 1] keeps the rows positive. */
  lemma KeepsPositive(w0: map<Provider, Row>, h: Provider, row: Row, ws: seq<nat>, factor: nat -> real)
    requires h in w0 && row == w0[h] && ValidDict(row)
    ensures PositiveRows(Some(w0)) && (forall w :: w in ws ==> 0.0 < factor(w) <= 1.0) ==>
      PositiveRows(Some(w0[h := Reweighted(row, ws, factor)]))
  {
    if PositiveRows(Some(w0)) && (forall w :: w in ws ==> 0.0 < factor(w) <= 1.0) {
      ReweightedShrinks(row, ws, factor);
    }
  }

  /** One more iteration of the tallying loop. */
  lemma TallyStep(ws: seq<Witness>, ps: seq<Provider>, threshold: real, pickWitness: nat -> nat,
                  pickProvider: nat -> nat, draw: nat -> real, e: nat, t: Tallies, w: Witness, p: Provider)
    requires Tally(ws, ps, threshold, pickWitness, pickProvider, draw, e) == Ok(t)
    requires |ws| > 0 && |ps| > 0 && w == ws[pickWitness(e) % |ws|] && p == ps[pickProvider(e) % |ps|]
    ensures w in t && p in t[w]
    ensures Tally(ws, ps, threshold, pickWitness, pickProvider, draw, e + 1) ==
            Ok(t[w := t[w][p := Bumped(t[w][p], GetService(p, draw(e)) >= threshold)]])
  {
    var k := pickWitness(e) % |ws|;
    assert ws[k] in Members(ws);
    assert p in ps;
  }

  /** The tallying loop of `preprocess`. */
  method CountInteractions(ws: seq<Witness>, ps: seq<Provider>, epochs: nat, threshold: real,
                           pickWitness: nat -> nat, pickProvider: nat -> nat, draw: nat -> real)
    returns (r: Result<Tallies>)
    ensures r == Tally(ws, ps, threshold, pickWitness, pickProvider, draw, epochs)
  {
    var t: Tallies := map i | 0 <= i < |ws| :: ws[i] := map p | p in ps :: Counts(0, 0);
    for e := 0 to epochs
      invariant Tally(ws, ps, threshold, pickWitness, pickProvider, draw, e) == Ok(t)
    {
      if |ws| == 0 || |ps| == 0 {
        return Err(IndexError);
      }
      var w := ws[pickWitness(e) % |ws|];
      var p := ps[pickProvider(e) % |ps|];
      TallyStep(ws, ps, threshold, pickWitness, pickProvider, draw, e, t, w, p);
      t := t[w := t[w][p := Bumped(t[w][p], GetService(p, draw(e)) >= threshold)]];
    }
    r := Ok(t);
  }

  /** The scores loop of `preprocess` for one witness. */
  method WriteScores(w: Witness, row: map<Provider, Counts>, ps: seq<Provider>)
    requires forall p :: p in ps ==> p in row
    modifies w`scores
    ensures w.scores == old(w.scores) + LaplaceScores(row, ps)
  {
    for j := 0 to |ps|
      invariant w.scores == old(w.scores) + map q | q in ps[..j] :: Laplace(row[q])
    {
      assert forall q :: q in ps[..j + 1] <==> q in ps[..j] || q == ps[j];
      w.scores := w.scores[ps[j] := Laplace(row[ps[j]])];
    }
    assert ps[..|ps|] == ps;
  }

  /** `preprocess` (a static method): the tallying loop, then the scores of
      every witness for every given provider set to the beta reputation of
      its tally; scores for other providers are kept. Drawing from an empty
      list raises IndexError before any score is written. The tallies,
      which the source leaves on the witnesses, are returned. */
  method Preprocess(ws: seq<Witness>, ps: seq<Provider>, epochs: nat, threshold: real,
                    pickWitness: nat -> nat, pickProvider: nat -> nat, draw: nat -> real)
    returns (r: Result<Tallies>)
    modifies Members(ws)`scores
    ensures r == Tally(ws, ps, threshold, pickWitness, pickProvider, draw, epochs)
    ensures r.Err? ==> forall i :: 0 <= i < |ws| ==> ws[i].scores == old(ws[i].scores)
    ensures r.Ok? ==> forall i :: 0 <= i < |ws| ==>
      ws[i].scores == old(ws[i].scores) + LaplaceScores(r.value[ws[i]], ps)
  {
    r := CountInteractions(ws, ps, epochs, threshold, pickWitness, pickProvider, draw);
    if r.Ok? {
      WriteAllScores(ws, r.value, ps);
    }
  }

  /** The scores loop of `preprocess` over all witnesses; a witness listed
      twice gets the same scores twice. */
  method WriteAllScores(ws: seq<Witness>, t: Tallies, ps: seq<Provider>)
    requires Covers(t, ws, ps)
    modifies Members(ws)`scores
    ensures forall i :: 0 <= i < |ws| ==> ws[i].scores == old(ws[i].scores) + LaplaceScores(t[ws[i]], ps)
  {
    for i := 0 to |ws|
      invariant forall j :: 0 <= j < |ws| ==>
        ws[j].scores == if ws[j] in ws[..i] then old(ws[j].scores) + LaplaceScores(t[ws[j]], ps) else old(ws[j].scores)
    {
      var w := ws[i];
      assert forall k :: 0 <= k < |ws| ==> (ws[k] in ws[..i + 1] <==> ws[k] in ws[..i] || ws[k] == w);
      assert w in Members(ws);
      WriteScores(w, t[w], ps);
      assert (old(w.scores) + LaplaceScores(t[w], ps)) + LaplaceScores(t[w], ps) == old(w.scores) + LaplaceScores(t[w], ps);
    }
    assert ws[..|ws|] == ws;
  }
}
