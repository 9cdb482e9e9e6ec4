/** TRAVOS: a consumer that trusts its own outcome counts when it is
    confident about them, and otherwise folds in the witnesses' opinions,
    each weighted by how accurate the witness has been in the same interval
    of opinion values. Beta distributions are summarised by their
    parameters; the areas under their densities are an input. */
module TravosMethod {
  import opened Errors
  import opened Arith
  import opened Collections
  import opened Providers
  import opened Consumers

  /** `stats.beta.std(1, 1)`, the standard deviation of the uniform
      distribution, sqrt(1/12), as the double the source computes. */
  const UniformSd: real := 0.28867513459481287
  /** The expected value of the uniform distribution. */
  const UniformMean: real := 0.5
  /** The standard deviation the source assigns to every witness opinion. */
  const WitnessSd: real := 0.1

  /** The parameters of a Beta distribution. */
  datatype Beta = Beta(alpha: real, beta: real)

  /** One entry of a witness's opinion history: whether its opinion agreed
      with the outcome, and the interval the opinion fell into. */
  datatype Entry = Entry(agreed: bool, bin: nat)

  /** The opinion a witness last gave about a provider, and its interval. */
  datatype Last = Last(expected: real, bin: nat)

  type History = map<nat, map<Provider, seq<Entry>>>
  type LastTable = map<nat, map<Provider, Last>>

  /** What the source computes outside the model: the witnesses' opinions
      (`score_of`) and `integrate.quad` of a Beta density between two
      bounds. */
  datatype Oracle = Oracle(opinion: (nat, Provider) -> real, area: (Beta, real, real) -> real)

  /** The constructor's parameters that the computations use, with the
      interval bounds it computes. */
  datatype Settings = Settings(epsilon: real, confidenceThreshold: real, outcomeThreshold: real, intervals: seq<real>)

  /** `stats.beta.expect`: the mean of the distribution, exactly. */
  function Mean(b: Beta): (m: real)
    requires b.alpha + b.beta != 0.0
  {
    b.alpha / (b.alpha + b.beta)
  }

  /** Parameters of at least 1 give a mean strictly between 0 and 1. */
  lemma MeanInUnitInterval(b: Beta)
    requires b.alpha >= 1.0 && b.beta >= 1.0
    ensures 0.0 < Mean(b) < 1.0
  {
    QuotientBounds(b.alpha, b.alpha + b.beta);
  }

  /** `np.linspace(0, 1, n + 1)`, exactly. */
  function Intervals(n: nat): (iv: seq<real>)
    ensures |iv| == n + 1
    ensures iv[0] == 0.0
    ensures n > 0 ==> iv[n] == 1.0
    ensures forall i, j :: 0 <= i < j < |iv| ==> iv[i] < iv[j]
  {
    if n == 0 then [0.0]
    else
      var iv := seq(n + 1, i requires 0 <= i <= n => i as real / n as real);
      assert forall i, j :: 0 <= i < j < |iv| ==> iv[i] < iv[j] by {
        forall i, j | 0 <= i < j < |iv|
          ensures iv[i] < iv[j]
        {
          Increasing(i, j, n);
        }
      }
      CancelFactor(n as real, 1.0, n as real);
      iv
  }

  lemma Increasing(i: nat, j: nat, n: nat)
    requires i < j && n > 0
    ensures i as real / n as real < j as real / n as real
  {
    var a := i as real / n as real;
    var b := j as real / n as real;
    assert a * n as real == i as real;
    assert b * n as real == j as real;
    assert (b - a) * n as real == (j - i) as real;
  }

  /** `np.argwhere(iv < v)`: the indices of the entries below v, in order. */
  function Below(iv: seq<real>, v: real): (r: seq<nat>)
    ensures |r| <= |iv|
  {
    if iv == [] then []
    else
      var n := |iv| - 1;
      Below(iv[..n], v) + (if iv[n] < v then [n] else [])
  }

  /** Over increasing bounds the entries below v form a prefix: the
      indices are 0, 1, ..., k-1, every bound before k is below v and none
      from k on. */
  lemma {:induction false} BelowIsPrefix(iv: seq<real>, v: real)
    requires forall i, j :: 0 <= i < j < |iv| ==> iv[i] < iv[j]
    ensures forall i :: 0 <= i < |Below(iv, v)| ==> Below(iv, v)[i] == i
    ensures forall i :: 0 <= i < |Below(iv, v)| ==> iv[i] < v
    ensures forall i :: |Below(iv, v)| <= i < |iv| ==> v <= iv[i]
  {
    if iv != [] {
      var n := |iv| - 1;
      BelowIsPrefix(iv[..n], v);
    }
  }

  /** The bin of an opinion v among the bounds iv, as
      `_accuracy_of_witness` computes it: 0 when no bound is below v, the
      second-to-last index when all are, and the last index below v
      otherwise. When all of a single bound is below v, the second-to-last
      entry does not exist and the lookup raises IndexError. */
  function BinIndex(iv: seq<real>, v: real): (r: Result<nat>)
    ensures r.Err? ==> r.error == IndexError
  {
    var below := Below(iv, v);
    if |below| == 0 then Ok(0)
    else if |below| == |iv| then (if |below| < 2 then Err(IndexError) else Ok(below[|below| - 2]))
    else Ok(below[|below| - 1])
  }

  /** Over the bounds of n intervals: the bin exists unless n = 0 and v is
      positive; a non-positive opinion falls into the first bin, one above
      1 into the last, and one in (0, 1] into the interval (lo, hi] that
      contains it. */
  lemma BinIndexSpec(n: nat, v: real)
    ensures var r := BinIndex(Intervals(n), v);
      && (r.Err? <==> n == 0 && v > 0.0)
      && (r.Ok? ==> r.value < n || r.value == 0)
      && (v <= 0.0 ==> r == Ok(0))
      && (n > 0 && 0.0 < v <= 1.0 ==> r.Ok? && Intervals(n)[r.value] < v <= Intervals(n)[r.value + 1])
      && (n > 0 && v > 1.0 ==> r == Ok(n - 1))
  {
    BelowIsPrefix(Intervals(n), v);
  }

  /** For n > 0 intervals every opinion's bin has an upper bound:
      `intervals[bin + 1]` exists. */
  lemma BinInRange(n: nat, v: real)
    requires n > 0
    ensures BinIndex(Intervals(n), v).Ok? && BinIndex(Intervals(n), v).value + 1 < |Intervals(n)|
  {
    BinIndexSpec(n, v);
  }

  /** Agreements and disagreements recorded in one bin. */
  datatype BinCounts = BinCounts(agreed: nat, disagreed: nat)

  /** The entries of a history that lie in bin b, split by agreement. */
  function BinTally(entries: seq<Entry>, b: nat): (c: BinCounts)
    ensures c.agreed + c.disagreed <= |entries|
  {
    if entries == [] then BinCounts(0, 0)
    else
      var c := BinTally(entries[1..], b);
      if entries[0].bin != b then c
      else if entries[0].agreed then BinCounts(c.agreed + 1, c.disagreed)
      else BinCounts(c.agreed, c.disagreed + 1)
  }

  /** Entries of other bins do not count. */
  lemma {:induction false} BinTallyOfOtherBins(entries: seq<Entry>, b: nat)
    requires forall i :: 0 <= i < |entries| ==> entries[i].bin != b
    ensures BinTally(entries, b) == BinCounts(0, 0)
  {
    if entries != [] {
      BinTallyOfOtherBins(entries[1..], b);
    }
  }

  /** Recording one entry in front of a history adds one count to its
      bin, of the kind it records, and leaves the other bins alone. */
  lemma PrependedEntry(entries: seq<Entry>, e: Entry, b: nat)
    ensures var before := BinTally(entries, b);
      var after := BinTally([e] + entries, b);
      if e.bin != b then after == before
      else if e.agreed then after == BinCounts(before.agreed + 1, before.disagreed)
      else after == BinCounts(before.agreed, before.disagreed + 1)
  {
    assert ([e] + entries)[1..] == entries;
  }

  /** The outcome of `_accuracy_of_witness` for witness w and provider p:
      the opinion and its bin when the method gets as far as storing them,
      and the accuracy or the error raised. */
  datatype Appraisal = Appraisal(stored: Option<Last>, accuracy: Result<real>)

  /** `_accuracy_of_witness`: the share of the area of Beta(1 + agreements,
      1 + disagreements in the opinion's bin) that lies in that bin. The
      opinion is stored before the final division, so a zero full area
      raises ZeroDivisionError after storing it. */
  function Appraise(st: Settings, or: Oracle, history: History, w: nat, p: Provider): (a: Appraisal)
    ensures a.accuracy.Ok? ==> a.stored.Some?
    ensures a.stored.Some? ==> w in history && p in history[w]
  {
    var v := or.opinion(w, p);
    match BinIndex(st.intervals, v)
    case Err(e) => Appraisal(None, Err(e))
    case Ok(b) =>
      if w !in history || p !in history[w] then Appraisal(None, Err(KeyError))
      else if b + 1 >= |st.intervals| then Appraisal(None, Err(IndexError))
      else
        var c := BinTally(history[w][p], b);
        var prior := Beta(1.0 + c.agreed as real, 1.0 + c.disagreed as real);
        var part := or.area(prior, st.intervals[b], st.intervals[b + 1]);
        var full := or.area(prior, 0.0, 1.0);
        Appraisal(Some(Last(v, b)), if full == 0.0 then Err(ZeroDivision) else Ok(part / full))
  }

  /** What an appraisal stores is the witness's opinion with its bin; a
      failed bin lookup or a missing history stores nothing and reports
      the error; with n > 0 intervals and a history, the opinion is always
      stored and only a zero full area fails. */
  lemma AppraiseSpec(st: Settings, or: Oracle, history: History, w: nat, p: Provider, n: nat)
    requires st.intervals == Intervals(n)
    ensures var a := Appraise(st, or, history, w, p);
      var bin := BinIndex(st.intervals, or.opinion(w, p));
      && (a.stored.Some? ==> a.stored.value == Last(or.opinion(w, p), bin.value) && bin.Ok?)
      && (bin.Err? ==> a == Appraisal(None, Err(IndexError)))
      && (bin.Ok? && (w !in history || p !in history[w]) ==> a == Appraisal(None, Err(KeyError)))
      && (n > 0 && w in history && p in history[w] ==> a.stored.Some? && (a.accuracy.Err? ==> a.accuracy.error == ZeroDivision))
  {
    BinIndexSpec(n, or.opinion(w, p));
    if n > 0 {
      BinInRange(n, or.opinion(w, p));
    }
  }

  /** `_calculate_alpha_beta`: the Beta parameters of mean mu and standard
      deviation sd by moment matching; sd = 0 divides by zero. */
  function AlphaBeta(mu: real, sd: real): (r: Result<Beta>)
    ensures r.Err? <==> sd == 0.0
    ensures r.Err? ==> r.error == ZeroDivision
    ensures r.Ok? ==> r.value.alpha + r.value.beta == mu * (1.0 - mu) / (sd * sd) - 1.0
    ensures r.Ok? ==> r.value.alpha == mu * (r.value.alpha + r.value.beta)
  {
    if sd == 0.0 then Err(ZeroDivision)
    else
      var s := sd * sd;
      SquarePositive(sd, s);
      MomentMatch(mu, s);
      Ok(Beta((mu * mu - mu * mu * mu) / s - mu,
              ((1.0 - mu) * (1.0 - mu) - (1.0 - mu) * (1.0 - mu) * (1.0 - mu)) / s - (1.0 - mu)))
  }

  lemma MomentMatch(mu: real, s: real)
    requires s != 0.0
    ensures var q := mu * (1.0 - mu) / s;
      && (mu * mu - mu * mu * mu) / s - mu == mu * (q - 1.0)
      && ((1.0 - mu) * (1.0 - mu) - (1.0 - mu) * (1.0 - mu) * (1.0 - mu)) / s - (1.0 - mu) == (1.0 - mu) * (q - 1.0)
  {
    var q := mu * (1.0 - mu) / s;
    assert q * s == mu * (1.0 - mu);
    assert (mu * q) * s == mu * mu - mu * mu * mu;
    assert ((1.0 - mu) * q) * s == (1.0 - mu) * (1.0 - mu) - (1.0 - mu) * (1.0 - mu) * (1.0 - mu);
  }

  /** The witness's opinion pulled towards the uniform mean by its accuracy. */
  function AdjustedMean(accuracy: real, opinion: real): real
  {
    UniformMean + accuracy * (opinion - UniformMean)
  }

  /** The deviation moved from the uniform one towards 0.1 by the accuracy. */
  function AdjustedSd(accuracy: real): real
  {
    UniformSd + accuracy * (WitnessSd - UniformSd)
  }

  /** For an accuracy in [0, 1] the adjusted mean lies between the uniform
      mean and the opinion, and the adjusted deviation between 0.1 and the
      uniform deviation (so it is never 0). */
  lemma AdjustedBetween(accuracy: real, opinion: real)
    requires 0.0 <= accuracy <= 1.0
    ensures opinion >= UniformMean ==> UniformMean <= AdjustedMean(accuracy, opinion) <= opinion
    ensures opinion <= UniformMean ==> opinion <= AdjustedMean(accuracy, opinion) <= UniformMean
    ensures WitnessSd <= AdjustedSd(accuracy) <= UniformSd
  {
    var d := opinion - UniformMean;
    assert accuracy * d - d == (accuracy - 1.0) * d;
    MulSigns(accuracy, d);
    MulSigns(1.0 - accuracy, d);
    assert accuracy * (WitnessSd - UniformSd) - (WitnessSd - UniformSd) == (accuracy - 1.0) * (WitnessSd - UniformSd);
    MulSigns(accuracy, WitnessSd - UniformSd);
    MulSigns(1.0 - accuracy, WitnessSd - UniformSd);
  }

  /** `max(x, 1.0)`. */
  function AtLeastOne(x: real): (r: real)
    ensures r >= 1.0 && r >= x
    ensures x >= 1.0 ==> r == x
  {
    if x >= 1.0 then x else 1.0
  }

  /** What one witness adds to alpha and beta: the moment-matched
      parameters of its adjusted opinion, floored at 1, minus 1. Both
      additions are non-negative. */
  function Contribution(accuracy: real, opinion: real): (r: Result<Beta>)
    ensures r.Err? <==> AdjustedSd(accuracy) == 0.0
    ensures r.Ok? ==> r.value.alpha >= 0.0 && r.value.beta >= 0.0
  {
    match AlphaBeta(AdjustedMean(accuracy, opinion), AdjustedSd(accuracy))
    case Err(e) => Err(e)
    case Ok(b) => Ok(Beta(AtLeastOne(b.alpha) - 1.0, AtLeastOne(b.beta) - 1.0))
  }

  /** What one witness does in the loop of
      `_estimate_value_with_witnesses_opinions`: the opinion its appraisal
      stores, and what it adds to alpha and beta or the error it raises. */
  datatype Visit = Visit(stored: Option<Last>, gain: Result<Beta>)

  /** The loop body for witness w and provider p. */
  function Look(st: Settings, or: Oracle, history: History, w: nat, p: Provider): (v: Visit)
    ensures v.gain.Ok? ==> v.gain.value.alpha >= 0.0 && v.gain.value.beta >= 0.0
    ensures v.stored.Some? ==> w in history && p in history[w]
  {
    var a := Appraise(st, or, history, w, p);
    Visit(a.stored, match a.accuracy
                    case Err(e) => Err(e)
                    case Ok(accuracy) => Contribution(accuracy, or.opinion(w, p)))
  }

  /** Gains never lower the parameters, and only opinions with a history
      are stored. */
  ghost predicate Sound(visit: nat -> Visit, history: History, p: Provider)
  {
    forall w :: && (visit(w).gain.Ok? ==> visit(w).gain.value.alpha >= 0.0 && visit(w).gain.value.beta >= 0.0)
                && (visit(w).stored.Some? ==> w in history && p in history[w])
  }

  /** The loop body for p as a function of the witness. */
  function Visitor(st: Settings, or: Oracle, history: History, p: Provider): (visit: nat -> Visit)
    ensures Sound(visit, history, p)
  {
    (w: nat) => Look(st, or, history, w, p)
  }

  /** The parameters after the first n witnesses of ws, starting from
      `start`, or the error of the first witness whose step fails. */
  function Gains(visit: nat -> Visit, ws: seq<nat>, n: nat, start: Beta): (r: Result<Beta>)
    requires n <= |ws|
  {
    if n == 0 then Ok(start)
    else
      match Gains(visit, ws, n - 1, start)
      case Err(e) => Err(e)
      case Ok(acc) =>
        match visit(ws[n - 1]).gain
        case Err(e) => Err(e)
        case Ok(c) => Ok(Beta(acc.alpha + c.alpha, acc.beta + c.beta))
  }

  /** One more witness whose step succeeds adds its gain. */
  lemma GainsStep(visit: nat -> Visit, ws: seq<nat>, i: nat, start: Beta, acc: Beta, g: Beta)
    requires i < |ws| && Gains(visit, ws, i, start) == Ok(acc) && visit(ws[i]).gain == Ok(g)
    ensures Gains(visit, ws, i + 1, start) == Ok(Beta(acc.alpha + g.alpha, acc.beta + g.beta))
  {
  }

  /** One more witness reached stores its opinion, if it has one. */
  lemma StoresStep(visit: nat -> Visit, last: LastTable, ws: seq<nat>, i: nat, p: Provider, start: Beta)
    requires i < |ws| && Gains(visit, ws, i, start).Ok?
    ensures var prev := Stores(visit, last, ws, i, p, start);
      Stores(visit, last, ws, i + 1, p, start)
      == if visit(ws[i]).stored.None? then prev else prev[ws[i] := Row(prev, ws[i])[p := visit(ws[i]).stored.value]]
  {
  }

  /** Gains never lower the parameters. */
  lemma {:induction false} GainsGrow(visit: nat -> Visit, history: History, p: Provider, ws: seq<nat>, n: nat, start: Beta)
    requires n <= |ws| && Sound(visit, history, p)
    ensures Gains(visit, ws, n, start).Ok? ==>
      Gains(visit, ws, n, start).value.alpha >= start.alpha && Gains(visit, ws, n, start).value.beta >= start.beta
  {
    if n > 0 {
      GainsGrow(visit, history, p, ws, n - 1, start);
    }
  }

  /** Once the first i witnesses fail, every longer prefix fails the same
      way. */
  lemma {:induction false} GainsKeepError(visit: nat -> Visit, ws: seq<nat>, start: Beta, i: nat, n: nat)
    requires i <= n <= |ws| && Gains(visit, ws, i, start).Err?
    ensures Gains(visit, ws, n, start) == Gains(visit, ws, i, start)
  {
    if i < n {
      GainsKeepError(visit, ws, start, i, n - 1);
    }
  }

  /** A witness's row of the last-opinion table. Every registered witness
      has one, so the empty default is never used for them. */
  function Row(last: LastTable, w: nat): (row: map<Provider, Last>)
    ensures w in last ==> row == last[w]
  {
    if w in last then last[w] else map[]
  }

  /** The last-opinion table after the loop for p has seen the first n
      witnesses: every witness reached stores its opinion, including the
      one whose step fails. */
  function Stores(visit: nat -> Visit, last: LastTable, ws: seq<nat>, n: nat, p: Provider, start: Beta): (r: LastTable)
    requires n <= |ws|
  {
    if n == 0 then last
    else
      var prev := Stores(visit, last, ws, n - 1, p, start);
      var v := visit(ws[n - 1]);
      if Gains(visit, ws, n - 1, start).Err? || v.stored.None? then prev
      else prev[ws[n - 1] := Row(prev, ws[n - 1])[p := v.stored.value]]
  }

  /** Once the loop has stopped at witness i, further witnesses store
      nothing. */
  lemma {:induction false} StoresKeepStop(visit: nat -> Visit, last: LastTable, ws: seq<nat>, p: Provider,
                                          start: Beta, i: nat, n: nat)
    requires i < n <= |ws| && Gains(visit, ws, i + 1, start).Err?
    ensures Stores(visit, last, ws, n, p, start) == Stores(visit, last, ws, i + 1, p, start)
  {
    if i + 1 < n {
      StoresKeepStop(visit, last, ws, p, start, i, n - 1);
      GainsKeepError(visit, ws, start, i + 1, n - 1);
    }
  }

  /** The table keeps its witnesses when all of ws have rows, only p's
      entries change, and records about other providers are kept. */
  lemma {:induction false} StoresTouchOnlyP(visit: nat -> Visit, last: LastTable, ws: seq<nat>, n: nat,
                                            p: Provider, start: Beta, w: nat, q: Provider)
    requires n <= |ws|
    requires forall x :: x in ws ==> x in last
    requires w in last && q != p
    ensures var r := Stores(visit, last, ws, n, p, start);
      && (forall x :: x in r <==> x in last)
      && (q in r[w] <==> q in last[w]) && (q in last[w] ==> r[w][q] == last[w][q])
  {
    if n > 0 {
      StoresTouchOnlyP(visit, last, ws, n - 1, p, start, w, q);
      assert ws[n - 1] in ws;
    }
  }

  /** The loop keeps the witnesses of the table when all of ws have rows. */
  lemma {:induction false} StoresKeepWitnesses(visit: nat -> Visit, last: LastTable, ws: seq<nat>, n: nat,
                                               p: Provider, start: Beta)
    requires n <= |ws|
    requires forall x :: x in ws ==> x in last
    ensures forall x :: x in Stores(visit, last, ws, n, p, start) <==> x in last
  {
    if n > 0 {
      StoresKeepWitnesses(visit, last, ws, n - 1, p, start);
      assert ws[n - 1] in ws;
    }
  }

  /** The loop only stores opinions whose history exists. */
  lemma {:induction false} StoresKeepFootprint(visit: nat -> Visit, history: History, last: LastTable,
                                               ws: seq<nat>, n: nat, p: Provider, start: Beta)
    requires n <= |ws| && Sound(visit, history, p)
    requires Footprint(last, history)
    ensures Footprint(Stores(visit, last, ws, n, p, start), history)
  {
    if n > 0 {
      StoresKeepFootprint(visit, history, last, ws, n - 1, p, start);
    }
  }

  /** `_estimate_value_with_witnesses_opinions`: the exact mean of the
      Beta distribution the witness loop ends with; the prior's parameters
      are the provider's own counts plus one, and the witnesses only add to
      them. */
  function Estimate(st: Settings, or: Oracle, history: History, ws: seq<nat>, p: Provider, prior: Beta)
    : (r: Result<real>)
    requires prior.alpha >= 1.0 && prior.beta >= 1.0
    ensures r.Ok? ==> 0.0 < r.value < 1.0
    ensures r.Err? <==> Gains(Visitor(st, or, history, p), ws, |ws|, prior).Err?
    ensures r.Ok? ==> var b := Gains(Visitor(st, or, history, p), ws, |ws|, prior).value;
      b.alpha >= prior.alpha && b.beta >= prior.beta && r.value == Mean(b)
  {
    var visit := Visitor(st, or, history, p);
    match Gains(visit, ws, |ws|, prior)
    case Err(e) => Err(e)
    case Ok(b) =>
      GainsGrow(visit, history, p, ws, |ws|, prior);
      MeanInUnitInterval(b);
      Ok(Mean(b))
  }

  /** The confidence `_confidence_values_of_providers` computes for a
      provider, with the prior built from its own counts. */
  datatype Confident = Confident(confidence: real, prior: Beta)

  /** The confidence for p: the area of its Beta within epsilon of the mean
      over the full area; an unregistered counter raises KeyError. */
  function Confidence(st: Settings, or: Oracle, positive: map<Provider, nat>, negative: map<Provider, nat>,
                      p: Provider): (r: Result<Confident>)
    ensures p !in positive || p !in negative <==> r == Err(KeyError)
    ensures r.Ok? ==> r.value.prior == Beta(positive[p] as real + 1.0, negative[p] as real + 1.0)
    ensures r.Ok? ==> r.value.prior.alpha >= 1.0 && r.value.prior.beta >= 1.0
  {
    if p !in positive || p !in negative then Err(KeyError)
    else
      var prior := Beta(positive[p] as real + 1.0, negative[p] as real + 1.0);
      var m := Mean(prior);
      var part := or.area(prior, m - st.epsilon, m + st.epsilon);
      var full := or.area(prior, 0.0, 1.0);
      if full == 0.0 then Err(ZeroDivision) else Ok(Confident(part / full, prior))
  }

  /** Every prior counts at least the one pseudo-outcome of each kind. */
  predicate Priors(cs: seq<Confident>)
  {
    forall i :: 0 <= i < |cs| ==> cs[i].prior.alpha >= 1.0 && cs[i].prior.beta >= 1.0
  }

  /** The confidence loop over the providers, or its first error. */
  function Confidences(st: Settings, or: Oracle, positive: map<Provider, nat>, negative: map<Provider, nat>,
                       keys: seq<Provider>): (r: Result<seq<Confident>>)
    ensures r.Ok? ==> |r.value| == |keys|
    ensures r.Ok? ==> forall i :: 0 <= i < |keys| ==> Confidence(st, or, positive, negative, keys[i]) == Ok(r.value[i])
    ensures r.Err? ==> exists i :: 0 <= i < |keys| && Confidence(st, or, positive, negative, keys[i]).Err?
    ensures r.Ok? ==> Priors(r.value)
  {
    if keys == [] then Ok([])
    else
      var n := |keys| - 1;
      match Confidences(st, or, positive, negative, keys[..n])
      case Err(e) =>
        ghost var i :| 0 <= i < n && Confidence(st, or, positive, negative, keys[..n][i]).Err?;
        assert keys[..n][i] == keys[i];
        Err(e)
      case Ok(cs) =>
        match Confidence(st, or, positive, negative, keys[n])
        case Err(e) => Err(e)
        case Ok(c) => Ok(cs + [c])
  }

  lemma {:induction false} ConfidencesKeepError(st: Settings, or: Oracle, positive: map<Provider, nat>,
                                                negative: map<Provider, nat>, keys: seq<Provider>, i: nat)
    requires i <= |keys| && Confidences(st, or, positive, negative, keys[..i]).Err?
    ensures Confidences(st, or, positive, negative, keys) == Confidences(st, or, positive, negative, keys[..i])
    decreases |keys| - i
  {
    if i < |keys| {
      assert keys[..i + 1][..i] == keys[..i];
      ConfidencesKeepError(st, or, positive, negative, keys, i + 1);
    } else {
      assert keys[..i] == keys;
    }
  }

  /** The value `choose_provider` assigns to one provider: its own mean
      when confident enough, the witness-based estimate otherwise. */
  function ProviderValue(st: Settings, or: Oracle, history: History, ws: seq<nat>, p: Provider, c: Confident)
    : (r: Result<real>)
    requires c.prior.alpha >= 1.0 && c.prior.beta >= 1.0
    ensures c.confidence >= st.confidenceThreshold ==> r == Ok(Mean(c.prior))
    ensures c.confidence < st.confidenceThreshold ==> r == Estimate(st, or, history, ws, p, c.prior)
    ensures r.Ok? ==> 0.0 < r.value < 1.0
  {
    MeanInUnitInterval(c.prior);
    if c.confidence < st.confidenceThreshold then Estimate(st, or, history, ws, p, c.prior)
    else Ok(Mean(c.prior))
  }

  /** The state of the valuation loop of `choose_provider` after some
      providers: the values assigned so far, the first error, and the
      last-opinion table. */
  datatype Valuation = Valuation(values: seq<real>, error: Option<Error>, last: LastTable)

  /** The valuation loop over the first n providers: every provider in
      turn gets its value, until the first error; only the witness-based
      estimates write the table. */
  function Valuate(st: Settings, or: Oracle, history: History, ws: seq<nat>, keys: seq<Provider>,
                   cs: seq<Confident>, n: nat, last: LastTable): (r: Valuation)
    requires n <= |keys| == |cs| && Priors(cs)
    ensures |r.values| <= n
    ensures r.error.None? <==> |r.values| == n
  {
    if n == 0 then Valuation([], None, last)
    else
      var prev := Valuate(st, or, history, ws, keys, cs, n - 1, last);
      if prev.error.Some? then prev
      else
        var c := cs[n - 1];
        var next := if c.confidence < st.confidenceThreshold
                    then Stores(Visitor(st, or, history, keys[n - 1]), prev.last, ws, |ws|, keys[n - 1], c.prior)
                    else prev.last;
        match ProviderValue(st, or, history, ws, keys[n - 1], c)
        case Err(e) => Valuation(prev.values, Some(e), next)
        case Ok(v) => Valuation(prev.values + [v], None, next)
  }

  /** values are the values of the first |values| providers, in order. */
  predicate Valued(st: Settings, or: Oracle, history: History, ws: seq<nat>, keys: seq<Provider>,
                   cs: seq<Confident>, values: seq<real>)
    requires |values| <= |keys| == |cs| && Priors(cs)
  {
    forall i :: 0 <= i < |values| ==> ProviderValue(st, or, history, ws, keys[i], cs[i]) == Ok(values[i])
  }

  /** The next provider's value extends a run of values. */
  lemma ValuedAppend(st: Settings, or: Oracle, history: History, ws: seq<nat>, keys: seq<Provider>,
                     cs: seq<Confident>, values: seq<real>, v: real)
    requires |values| < |keys| == |cs| && Priors(cs)
    requires Valued(st, or, history, ws, keys, cs, values)
    requires ProviderValue(st, or, history, ws, keys[|values|], cs[|values|]) == Ok(v)
    ensures Valued(st, or, history, ws, keys, cs, values + [v])
  {
  }

  /** The values of the valuation loop are the providers' values in
      order, and an error is the error of the provider after them. */
  lemma {:induction false} ValuateSpec(st: Settings, or: Oracle, history: History, ws: seq<nat>, keys: seq<Provider>,
                                       cs: seq<Confident>, n: nat, last: LastTable)
    requires n <= |keys| == |cs| && Priors(cs)
    ensures var r := Valuate(st, or, history, ws, keys, cs, n, last);
      && Valued(st, or, history, ws, keys, cs, r.values)
      && (r.error.Some? ==> ProviderValue(st, or, history, ws, keys[|r.values|], cs[|r.values|]) == Err(r.error.value))
  {
    if n > 0 {
      ValuateSpec(st, or, history, ws, keys, cs, n - 1, last);
      var prev := Valuate(st, or, history, ws, keys, cs, n - 1, last);
      if prev.error.None? {
        var v := ProviderValue(st, or, history, ws, keys[n - 1], cs[n - 1]);
        var next := if cs[n - 1].confidence < st.confidenceThreshold
                    then Stores(Visitor(st, or, history, keys[n - 1]), prev.last, ws, |ws|, keys[n - 1], cs[n - 1].prior)
                    else prev.last;
        ValuateStep(st, or, history, ws, keys, cs, n - 1, last, prev.values, prev.last, v, next);
        if v.Ok? {
          ValuedAppend(st, or, history, ws, keys, cs, prev.values, v.value);
        }
      }
    }
  }

  /** One more provider, after a run without error: its value v is added,
      or its error ends the run, and `next` is the table after its step. */
  lemma ValuateStep(st: Settings, or: Oracle, history: History, ws: seq<nat>, keys: seq<Provider>,
                    cs: seq<Confident>, i: nat, last: LastTable, values: seq<real>, table: LastTable,
                    v: Result<real>, next: LastTable)
    requires i < |keys| == |cs| && Priors(cs)
    requires Valuate(st, or, history, ws, keys, cs, i, last) == Valuation(values, None, table)
    requires v == ProviderValue(st, or, history, ws, keys[i], cs[i])
    requires next == if cs[i].confidence < st.confidenceThreshold
                     then Stores(Visitor(st, or, history, keys[i]), table, ws, |ws|, keys[i], cs[i].prior)
                     else table
    ensures v.Ok? ==> Valuate(st, or, history, ws, keys, cs, i + 1, last) == Valuation(values + [v.value], None, next)
    ensures v.Err? ==> Valuate(st, or, history, ws, keys, cs, i + 1, last) == Valuation(values, Some(v.error), next)
  {
  }

  /** Once a provider's valuation fails, the loop stops there. */
  lemma {:induction false} ValuateKeepsStop(st: Settings, or: Oracle, history: History, ws: seq<nat>,
                                            keys: seq<Provider>, cs: seq<Confident>, last: LastTable, i: nat, n: nat)
    requires i <= n <= |keys| == |cs| && Priors(cs)
    requires Valuate(st, or, history, ws, keys, cs, i, last).error.Some?
    ensures Valuate(st, or, history, ws, keys, cs, n, last) == Valuate(st, or, history, ws, keys, cs, i, last)
  {
    if i < n {
      ValuateKeepsStop(st, or, history, ws, keys, cs, last, i, n - 1);
    }
  }

  /** The valuation loop keeps the table's witnesses. */
  lemma {:induction false} ValuateKeepsWitnesses(st: Settings, or: Oracle, history: History, ws: seq<nat>,
                                                 keys: seq<Provider>, cs: seq<Confident>, n: nat, last: LastTable)
    requires n <= |keys| == |cs| && Priors(cs)
    requires forall w :: w in ws ==> w in last
    ensures forall w :: w in Valuate(st, or, history, ws, keys, cs, n, last).last <==> w in last
  {
    if n > 0 {
      ValuateKeepsWitnesses(st, or, history, ws, keys, cs, n - 1, last);
      var prev := Valuate(st, or, history, ws, keys, cs, n - 1, last);
      if prev.error.None? {
        StoresKeepWitnesses(Visitor(st, or, history, keys[n - 1]), prev.last, ws, |ws|, keys[n - 1], cs[n - 1].prior);
      }
    }
  }

  /** `choose_provider` starts from a table with no opinions. */
  function Cleared(last: LastTable): (r: LastTable)
    ensures r.Keys == last.Keys
    ensures forall w :: w in r ==> r[w] == map[]
  {
    map w | w in last :: map[]
  }

  /** A confident provider keeps its own mean, whatever the witnesses say. */
  lemma ConfidentProviderIgnoresWitnesses(st: Settings, or1: Oracle, or2: Oracle, history: History, ws: seq<nat>,
                                          p: Provider, c: Confident)
    requires c.prior.alpha >= 1.0 && c.prior.beta >= 1.0
    requires c.confidence >= st.confidenceThreshold
    ensures ProviderValue(st, or1, history, ws, p, c) == ProviderValue(st, or2, history, ws, p, c)
  {
  }

  /** Every stored opinion refers to a witness and provider with a
      history, so `update_provider` can prepend to it. */
  ghost predicate Footprint(last: LastTable, history: History)
  {
    forall w, q :: w in last && q in last[w] ==> w in history && q in history[w]
  }

  /** The same for the whole valuation loop. */
  lemma {:induction false} ValuateKeepsFootprint(st: Settings, or: Oracle, history: History, ws: seq<nat>,
                                                 keys: seq<Provider>, cs: seq<Confident>, n: nat, last: LastTable)
    requires n <= |keys| == |cs| && Priors(cs)
    requires Footprint(last, history)
    ensures Footprint(Valuate(st, or, history, ws, keys, cs, n, last).last, history)
  {
    if n > 0 {
      ValuateKeepsFootprint(st, or, history, ws, keys, cs, n - 1, last);
      var prev := Valuate(st, or, history, ws, keys, cs, n - 1, last);
      if prev.error.None? {
        StoresKeepFootprint(Visitor(st, or, history, keys[n - 1]), history, prev.last, ws, |ws|, keys[n - 1], cs[n - 1].prior);
      }
    }
  }

  /** `for provider in self.providers: history[provider] = []` for one
      witness's row: the given providers start an empty history, the
      others keep theirs. */
  function Reset(row: map<Provider, seq<Entry>>, ps: seq<Provider>): (r: map<Provider, seq<Entry>>)
    ensures forall q :: q in r <==> q in row || q in ps
    ensures forall q :: q in ps ==> r[q] == []
    ensures forall q :: q in row && q !in ps ==> r[q] == row[q]
  {
    map q | q in row.Keys + (set x | x in ps) :: if q in ps then [] else row[q]
  }

  /** Registering a witness twice is the same as once. */
  lemma ResetIdempotent(row: map<Provider, seq<Entry>>, ps: seq<Provider>)
    ensures Reset(Reset(row, ps), ps) == Reset(row, ps)
  {
  }

  /** After a reset, a provider's history counts nothing in any bin. */
  lemma ResetCountsNothing(row: map<Provider, seq<Entry>>, ps: seq<Provider>, q: Provider, b: nat)
    requires q in ps
    ensures BinTally(Reset(row, ps)[q], b) == BinCounts(0, 0)
  {
  }

  lemma ResetNone(row: map<Provider, seq<Entry>>)
    ensures Reset(row, []) == row
  {
  }

  lemma ResetStep(row: map<Provider, seq<Entry>>, ps: seq<Provider>, i: nat)
    requires i < |ps|
    ensures Reset(row, ps[..i + 1]) == Reset(row, ps[..i])[ps[i] := []]
  {
    assert ps[..i + 1] == ps[..i] + [ps[i]];
  }

  /** A witness's row before registration: what it had, or nothing. */
  function Initial(history: History, w: nat): (row: map<Provider, seq<Entry>>)
    ensures w in history ==> row == history[w]
    ensures w !in history ==> row == map[]
  {
    if w in history then history[w] else map[]
  }

  /** The entry `update_provider` records for a stored opinion: whether the
      opinion and the outcome lie on the same side of the threshold. */
  function Agreement(l: Last, score: real, threshold: real): (e: Entry)
    ensures e.bin == l.bin
    ensures e.agreed <==> (l.expected > threshold <==> score > threshold)
  {
    Entry((l.expected > threshold) == (score > threshold), l.bin)
  }

  /** The histories after `register_witnesses` has processed the first n
      of ws: each processed witness has its row reset for the providers ps. */
  function Registered(history: History, ws: seq<nat>, n: nat, ps: seq<Provider>): History
    requires n <= |ws|
  {
    if n == 0 then history
    else
      var prev := Registered(history, ws, n - 1, ps);
      prev[ws[n - 1] := Reset(Initial(prev, ws[n - 1]), ps)]
  }

  /** The stored opinions after the same steps: a new witness gets an empty
      row, a known one keeps its row. */
  function RegisteredLast(last: LastTable, ws: seq<nat>, n: nat): LastTable
    requires n <= |ws|
  {
    if n == 0 then last
    else
      var prev := RegisteredLast(last, ws, n - 1);
      if ws[n - 1] in prev then prev else prev[ws[n - 1] := map[]]
  }

  /** What registration does to the histories: the processed witnesses get
      their earlier row reset (once or several times alike), the others keep
      theirs. */
  lemma {:induction false} RegisteredSpec(history: History, ws: seq<nat>, n: nat, ps: seq<Provider>)
    requires n <= |ws|
    ensures forall w :: w in Registered(history, ws, n, ps) <==> w in history || w in ws[..n]
    ensures forall w :: w in ws[..n] ==> Registered(history, ws, n, ps)[w] == Reset(Initial(history, w), ps)
    ensures forall w :: w in history && w !in ws[..n] ==> Registered(history, ws, n, ps)[w] == history[w]
  {
    if n > 0 {
      RegisteredSpec(history, ws, n - 1, ps);
      assert ws[..n] == ws[..n - 1] + [ws[n - 1]];
      var prev := Registered(history, ws, n - 1, ps);
      ResetIdempotent(Initial(history, ws[n - 1]), ps);
      assert Reset(Initial(prev, ws[n - 1]), ps) == Reset(Initial(history, ws[n - 1]), ps);
    }
  }

  /** What registration does to the stored opinions: rows are only added,
      and the added ones are empty. */
  lemma {:induction false} RegisteredLastSpec(last: LastTable, ws: seq<nat>, n: nat)
    requires n <= |ws|
    ensures forall w :: w in RegisteredLast(last, ws, n) <==> w in last || w in ws[..n]
    ensures forall w :: w in last ==> RegisteredLast(last, ws, n)[w] == last[w]
    ensures forall w :: w in ws[..n] && w !in last ==> RegisteredLast(last, ws, n)[w] == map[]
  {
    if n > 0 {
      RegisteredLastSpec(last, ws, n - 1);
      assert ws[..n] == ws[..n - 1] + [ws[n - 1]];
    }
  }

  /** A dictionary whose every key holds a value is all valued. */
  lemma EveryKeyValued(d: ODict<Provider, Option<real>>, values: seq<real>)
    requires ValidDict(d) && |values| == |d.keys|
    requires forall j :: 0 <= j < |values| ==> d.values[d.keys[j]] == Some(values[j])
    ensures AllValued(d)
  {
    forall q | q in d.values
      ensures d.values[q].Some?
    {
      var j :| 0 <= j < |d.keys| && d.keys[j] == q;
    }
  }

  /** The registration dict after the first |values| registered providers
      were given their values, one `providers[p] = value` at a time. */
  function Assigned(d: ODict<Provider, Option<real>>, values: seq<real>): ODict<Provider, Option<real>>
    requires |values| <= |d.keys|
  {
    if values == [] then d
    else
      var n := |values| - 1;
      Put(Assigned(d, values[..n]), d.keys[n], Some(values[n]))
  }

  /** Assigning keeps the keys and their order, gives each of the first
      providers its value and leaves the others as they were. */
  lemma {:induction false} AssignedSpec(d: ODict<Provider, Option<real>>, values: seq<real>)
    requires ValidDict(d) && |values| <= |d.keys|
    ensures var r := Assigned(d, values);
      && ValidDict(r) && r.keys == d.keys
      && (forall j :: 0 <= j < |values| ==> r.values[d.keys[j]] == Some(values[j]))
      && (forall j :: |values| <= j < |d.keys| ==> r.values[d.keys[j]] == d.values[d.keys[j]])
  {
    if values != [] {
      var n := |values| - 1;
      AssignedSpec(d, values[..n]);
      assert forall j :: 0 <= j < |d.keys| && j != n ==> d.keys[j] != d.keys[n];
    }
  }

  /** Registration keeps the two tables' keys equal and every stored
      opinion backed by a history. */
  lemma {:induction false} RegisteredKeepsFootprint(history: History, last: LastTable, ws: seq<nat>, n: nat, ps: seq<Provider>)
    requires n <= |ws|
    requires last.Keys == history.Keys && Footprint(last, history)
    ensures RegisteredLast(last, ws, n).Keys == Registered(history, ws, n, ps).Keys
    ensures Footprint(RegisteredLast(last, ws, n), Registered(history, ws, n, ps))
  {
    if n > 0 {
      RegisteredKeepsFootprint(history, last, ws, n - 1, ps);
    }
  }

  class Travos {
    const base: Consumer
    const settings: Settings
    /** `_positive_outcomes` and `_negative_outcomes`. */
    var positive: map<Provider, nat>
    var negative: map<Provider, nat>
    /** `_outcome_history` and `_last_outcome_history`. */
    var history: History
    var last: LastTable

    /** The two tables are created together, every registered witness has
        a history, and every stored opinion has a history to extend. */
    ghost predicate Valid()
      reads this, base
    {
      && base.Valid()
      && last.Keys == history.Keys
      && (forall w :: w in base.witnesses.keys ==> w in history)
      && Footprint(last, history)
    }

    /** The constructor; `intervals` is `num_intervals`, so the bounds are
        `Intervals(intervals)`. `num_steps_integration` is stored by the
        source but never read, and is not kept. */
    constructor (epsilon: real, confidenceThreshold: real, intervals: nat, outcomeThreshold: real)
      ensures Valid() && fresh(base)
      ensures settings == Settings(epsilon, confidenceThreshold, outcomeThreshold, Intervals(intervals))
      ensures base.witnesses.keys == [] && base.providers.keys == []
      ensures positive == map[] && negative == map[] && history == map[] && last == map[]
    {
      base := new Consumer();
      settings := Settings(epsilon, confidenceThreshold, outcomeThreshold, Intervals(intervals));
      positive := map[];
      negative := map[];
      history := map[];
      last := map[];
    }

    /** `register_witnesses`: the base registration, then a table row for
        each new witness and an empty history for every current provider
        of each given witness. */
    method RegisterWitnesses(ws: seq<nat>)
      requires Valid()
      modifies base`witnesses, this`history, this`last
      ensures Valid()
      ensures base.witnesses == PutAll(old(base.witnesses), ws, None)
      ensures forall w :: w in history <==> w in old(history) || w in ws
      ensures forall w :: w in ws ==> history[w] == Reset(Initial(old(history), w), base.providers.keys)
      ensures forall w :: w in old(history) && w !in ws ==> history[w] == old(history)[w]
      ensures forall w :: w in last <==> w in old(last) || w in ws
      ensures forall w :: w in old(last) ==> last[w] == old(last)[w]
      ensures forall w :: w in ws && w !in old(last) ==> last[w] == map[]
    {
      base.RegisterWitnesses(ws);
      PutAllSpec(old(base.witnesses), ws, None);
      RegisterRows(ws, base.providers.keys);
    }

    /** The loop of `register_witnesses` over the given witnesses. */
    method RegisterRows(ws: seq<nat>, ps: seq<Provider>)
      requires last.Keys == history.Keys && Footprint(last, history)
      modifies this`history, this`last
      ensures last.Keys == history.Keys && Footprint(last, history)
      ensures forall w :: w in history <==> w in old(history) || w in ws
      ensures forall w :: w in ws ==> history[w] == Reset(Initial(old(history), w), ps)
      ensures forall w :: w in old(history) && w !in ws ==> history[w] == old(history)[w]
      ensures forall w :: w in last <==> w in old(last) || w in ws
      ensures forall w :: w in old(last) ==> last[w] == old(last)[w]
      ensures forall w :: w in ws && w !in old(last) ==> last[w] == map[]
    {
      for i := 0 to |ws|
        invariant history == Registered(old(history), ws, i, ps)
        invariant last == RegisteredLast(old(last), ws, i)
      {
        RegisteredKeepsFootprint(old(history), old(last), ws, i, ps);
        RegisterOne(ws[i], ps);
      }
      RegisteredKeepsFootprint(old(history), old(last), ws, |ws|, ps);
      RegisteredSpec(old(history), ws, |ws|, ps);
      RegisteredLastSpec(old(last), ws, |ws|);
      assert ws[..|ws|] == ws;
    }

    /** The loop body of `register_witnesses` for one witness. */
    method RegisterOne(w: nat, ps: seq<Provider>)
      requires last.Keys == history.Keys && Footprint(last, history)
      modifies this`history, this`last
      ensures last.Keys == history.Keys && Footprint(last, history)
      ensures history == old(history)[w := Reset(Initial(old(history), w), ps)]
      ensures last == if w in old(last) then old(last) else old(last)[w := map[]]
    {
      if w !in history {
        history := history[w := map[]];
        last := last[w := map[]];
      }
      ResetHistory(w, ps);
    }

    /** The inner loop of `register_witnesses` for one witness. */
    method ResetHistory(w: nat, ps: seq<Provider>)
      requires w in history
      modifies this`history
      ensures history == old(history)[w := Reset(old(history)[w], ps)]
    {
      ResetNone(old(history)[w]);
      assert ps[..0] == [];
      for i := 0 to |ps|
        invariant w in history
        invariant history == old(history)[w := Reset(old(history)[w], ps[..i])]
      {
        ResetStep(old(history)[w], ps, i);
        history := history[w := history[w][ps[i] := []]];
      }
      assert ps[..|ps|] == ps;
    }

    /** `register_providers`: the base registration, then zero counters for
        exactly the given providers (earlier counters are dropped). */
    method RegisterProviders(ps: seq<Provider>)
      requires Valid()
      modifies base`providers, this`positive, this`negative
      ensures Valid()
      ensures base.providers == PutAll(old(base.providers), ps, None)
      ensures forall q :: q in positive <==> q in ps
      ensures forall q :: q in negative <==> q in ps
      ensures forall q :: q in ps ==> positive[q] == 0 && negative[q] == 0
    {
      base.RegisterProviders(ps);
      positive := map q | q in ps :: 0;
      negative := map q | q in ps :: 0;
    }

    /** The loop of `update_provider`: every witness with a stored opinion
        about p gets an entry saying whether the opinion was on the side of
        the threshold the outcome fell on. */
    method RecordAgreements(p: Provider, score: real)
      requires Valid()
      modifies this`history
      ensures Valid()
      ensures history.Keys == old(history).Keys
      ensures forall w :: w in base.witnesses.keys && p in last[w] ==>
        history[w] == old(history)[w][p := [Agreement(last[w][p], score, settings.outcomeThreshold)] + old(history)[w][p]]
      ensures forall w :: w in old(history) && !(w in base.witnesses.keys && p in last[w]) ==> history[w] == old(history)[w]
    {
      var ws := base.witnesses.keys;
      for i := 0 to |ws|
        invariant history.Keys == old(history).Keys
        invariant forall w :: w in ws[..i] && p in last[w] ==>
          history[w] == old(history)[w][p := [Agreement(last[w][p], score, settings.outcomeThreshold)] + old(history)[w][p]]
        invariant forall w :: w in old(history) && !(w in ws[..i] && p in last[w]) ==> history[w] == old(history)[w]
      {
        var w := ws[i];
        assert ws[..i + 1] == ws[..i] + [w];
        assert w !in ws[..i];
        if p in last[w] {
          var e := Agreement(last[w][p], score, settings.outcomeThreshold);
          history := history[w := history[w][p := [e] + history[w][p]]];
        }
      }
      assert ws[..|ws|] == ws;
    }

    /** `update_provider`: the agreements are recorded, then the outcome's
        counter for p grows by one, or KeyError when p has no counter (the
        entries are kept). */
    method UpdateProvider(p: Provider, score: real) returns (r: Outcome)
      requires Valid()
      modifies this`history, this`positive, this`negative
      ensures Valid()
      ensures history.Keys == old(history).Keys
      ensures forall w :: w in base.witnesses.keys && p in last[w] ==>
        history[w] == old(history)[w][p := [Agreement(last[w][p], score, settings.outcomeThreshold)] + old(history)[w][p]]
      ensures forall w :: w in old(history) && !(w in base.witnesses.keys && p in last[w]) ==> history[w] == old(history)[w]
      ensures score > settings.outcomeThreshold ==>
        if p in old(positive) then r == Pass && positive == old(positive)[p := old(positive)[p] + 1] && negative == old(negative)
        else r == Fail(KeyError) && positive == old(positive) && negative == old(negative)
      ensures score <= settings.outcomeThreshold ==>
        if p in old(negative) then r == Pass && negative == old(negative)[p := old(negative)[p] + 1] && positive == old(positive)
        else r == Fail(KeyError) && positive == old(positive) && negative == old(negative)
    {
      RecordAgreements(p, score);
      if score > settings.outcomeThreshold {
        if p !in positive {
          return Fail(KeyError);
        }
        positive := positive[p := positive[p] + 1];
      } else {
        if p !in negative {
          return Fail(KeyError);
        }
        negative := negative[p := negative[p] + 1];
      }
      r := Pass;
    }

    /** `update` fails before it computes anything: neither `get_average_value`
        on a provider nor a `MAE` list on the consumer exists. */
    function Update(): (r: Outcome)
      ensures r == Fail(AttributeError)
    {
      Fail(AttributeError)
    }

    /** `_confidence_values_of_providers`. */
    method ConfidenceValues(or: Oracle) returns (r: Result<seq<Confident>>)
      ensures r == Confidences(settings, or, positive, negative, base.providers.keys)
    {
      var keys := base.providers.keys;
      var cs: seq<Confident> := [];
      for i := 0 to |keys|
        invariant Confidences(settings, or, positive, negative, keys[..i]) == Ok(cs)
      {
        assert keys[..i + 1][..i] == keys[..i];
        var c := Confidence(settings, or, positive, negative, keys[i]);
        if c.Err? {
          ConfidencesKeepError(settings, or, positive, negative, keys, i + 1);
          return Err(c.error);
        }
        cs := cs + [c.value];
      }
      assert keys[..|keys|] == keys;
      r := Ok(cs);
    }

    /** The loop of `_estimate_value_with_witnesses_opinions` for p, one
        `visit` per witness in order: each visit stores the opinion it
        appraised, the gains add up, and the loop stops at the first error. */
    method Scan(visit: nat -> Visit, ws: seq<nat>, p: Provider, prior: Beta) returns (r: Result<Beta>)
      requires forall w :: w in ws ==> w in last
      modifies this`last
      ensures last == Stores(visit, old(last), ws, |ws|, p, prior)
      ensures r == Gains(visit, ws, |ws|, prior)
    {
      var acc := prior;
      for i := 0 to |ws|
        invariant forall w :: w in ws ==> w in last
        invariant last == Stores(visit, old(last), ws, i, p, prior)
        invariant Gains(visit, ws, i, prior) == Ok(acc)
      {
        assert ws[i] in ws;
        StoresStep(visit, old(last), ws, i, p, prior);
        var v := visit(ws[i]);
        if v.stored.Some? {
          last := last[ws[i] := last[ws[i]][p := v.stored.value]];
        }
        if v.gain.Err? {
          GainsKeepError(visit, ws, prior, i + 1, |ws|);
          StoresKeepStop(visit, old(last), ws, p, prior, i, |ws|);
          return Err(v.gain.error);
        }
        GainsStep(visit, ws, i, prior, acc, v.gain.value);
        acc := Beta(acc.alpha + v.gain.value.alpha, acc.beta + v.gain.value.beta);
      }
      r := Ok(acc);
    }

    /** `_estimate_value_with_witnesses_opinions` for p, whose own counts
        give `prior`: each witness's appraisal stores its opinion, and the
        mean of the combined distribution is the estimate. */
    method EstimateWithWitnesses(or: Oracle, p: Provider, prior: Beta) returns (r: Result<real>)
      requires prior.alpha >= 1.0 && prior.beta >= 1.0
      requires forall w :: w in base.witnesses.keys ==> w in last
      modifies this`last
      ensures last == Stores(Visitor(settings, or, history, p), old(last), base.witnesses.keys, |base.witnesses.keys|, p, prior)
      ensures r == Estimate(settings, or, history, base.witnesses.keys, p, prior)
    {
      var visit := Visitor(settings, or, history, p);
      var g := Scan(visit, base.witnesses.keys, p, prior);
      if g.Err? {
        return Err(g.error);
      }
      GainsGrow(visit, history, p, base.witnesses.keys, |base.witnesses.keys|, prior);
      MeanInUnitInterval(g.value);
      r := Ok(Mean(g.value));
    }

    /** The body of the valuation loop for provider p with confidence c:
        its value, with the witnesses' opinions stored when they are asked. */
    method ValueOf(or: Oracle, p: Provider, c: Confident) returns (v: Result<real>)
      requires c.prior.alpha >= 1.0 && c.prior.beta >= 1.0
      requires forall w :: w in base.witnesses.keys ==> w in last
      modifies this`last
      ensures v == ProviderValue(settings, or, history, base.witnesses.keys, p, c)
      ensures last == if c.confidence < settings.confidenceThreshold
                      then Stores(Visitor(settings, or, history, p), old(last), base.witnesses.keys,
                                  |base.witnesses.keys|, p, c.prior)
                      else old(last)
    {
      if c.confidence < settings.confidenceThreshold {
        v := EstimateWithWitnesses(or, p, c.prior);
      } else {
        MeanInUnitInterval(c.prior);
        v := Ok(Mean(c.prior));
      }
    }

    /** One iteration of the valuation loop: the value of the i-th
        provider, storing the opinions its estimate asked for. */
    method AssignNext(or: Oracle, keys: seq<Provider>, cs: seq<Confident>, i: nat, values: seq<real>,
                      ghost start: LastTable) returns (v: Result<real>)
      requires i < |keys| == |cs| && Priors(cs)
      requires forall w :: w in base.witnesses.keys ==> w in start
      requires Valuate(settings, or, history, base.witnesses.keys, keys, cs, i, start) == Valuation(values, None, last)
      modifies this`last
      ensures v.Ok? ==>
        Valuate(settings, or, history, base.witnesses.keys, keys, cs, i + 1, start) == Valuation(values + [v.value], None, last)
      ensures v.Err? ==>
        Valuate(settings, or, history, base.witnesses.keys, keys, cs, |keys|, start) == Valuation(values, Some(v.error), last)
    {
      var ws := base.witnesses.keys;
      ValuateKeepsWitnesses(settings, or, history, ws, keys, cs, i, start);
      ghost var table := last;
      v := ValueOf(or, keys[i], cs[i]);
      ValuateStep(settings, or, history, ws, keys, cs, i, start, values, table, v, last);
      if v.Err? {
        ValuateKeepsStop(settings, or, history, ws, keys, cs, start, i + 1, |keys|);
      }
    }

    /** The valuation loop of `choose_provider` over the confidences cs of
        the registered providers, in order: each provider's value is
        written as soon as it is known, and the loop stops at the first
        error. */
    method AssignValues(or: Oracle, cs: seq<Confident>) returns (values: seq<real>, error: Option<Error>)
      requires ValidDict(base.providers) && (forall w :: w in base.witnesses.keys ==> w in last)
      requires |cs| == |base.providers.keys| && Priors(cs)
      modifies this`last, base`providers
      ensures |values| <= |cs| && base.providers == Assigned(old(base.providers), values)
      ensures Valuate(settings, or, history, base.witnesses.keys, old(base.providers.keys), cs, |cs|, old(last))
              == Valuation(values, error, last)
    {
      var keys := base.providers.keys;
      var ws := base.witnesses.keys;
      values := [];
      error := None;
      for i := 0 to |keys|
        invariant |values| == i
        invariant base.providers == Assigned(old(base.providers), values)
        invariant Valuate(settings, or, history, ws, keys, cs, i, old(last)) == Valuation(values, None, last)
      {
        var v := AssignNext(or, keys, cs, i, values, old(last));
        if v.Err? {
          return values, Some(v.error);
        }
        base.providers := Put(base.providers, keys[i], Some(v.value));
        ghost var before := values;
        values := values + [v.value];
        assert values[..i] == before;
      }
    }

    /** `choose_provider`: the stored opinions are cleared, every provider
        gets its value (its own mean when confident enough, the
        witness-based estimate otherwise), and the provider with the first
        largest value is chosen; no provider is a ValueError, and an error
        of a step ends the choice. */
    method ChooseProvider(or: Oracle) returns (r: Result<Provider>)
      requires Valid()
      modifies this`last, base`providers
      ensures Valid()
      ensures base.providers.keys == old(base.providers.keys)
      ensures var cs := Confidences(settings, or, positive, negative, base.providers.keys);
        cs.Err? ==> r == Err(cs.error) && last == Cleared(old(last)) && base.providers == old(base.providers)
      ensures var keys := base.providers.keys;
        var cs := Confidences(settings, or, positive, negative, keys);
        cs.Ok? ==>
          var v := Valuate(settings, or, history, base.witnesses.keys, keys, cs.value, |keys|, Cleared(old(last)));
          && last == v.last
          && (forall j :: 0 <= j < |v.values| ==> base.providers.values[keys[j]] == Some(v.values[j]))
          && (forall j :: |v.values| <= j < |keys| ==> base.providers.values[keys[j]] == old(base.providers.values[keys[j]]))
          && r == if v.error.Some? then Err(v.error.value) else MaxProvider(base.providers)
      ensures r.Ok? ==> AllValued(base.providers) && r.value in base.providers.values
      ensures r.Ok? ==> forall q :: q in base.providers.values ==>
        base.providers.values[q].value <= base.providers.values[r.value].value
    {
      last := Cleared(last);
      var cr := ConfidenceValues(or);
      if cr.Err? {
        return Err(cr.error);
      }
      ghost var cleared := last;
      ghost var before := base.providers;
      var values, error := AssignValues(or, cr.value);
      AssignedSpec(before, values);
      ValuateKeepsWitnesses(settings, or, history, base.witnesses.keys, base.providers.keys, cr.value, |cr.value|, cleared);
      ValuateKeepsFootprint(settings, or, history, base.witnesses.keys, base.providers.keys, cr.value, |cr.value|, cleared);
      assert last.Keys == cleared.Keys;
      if error.Some? {
        return Err(error.value);
      }
      EveryKeyValued(base.providers, values);
      r := MaxProvider(base.providers);
    }
  }
}
