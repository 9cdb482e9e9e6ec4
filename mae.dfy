/** The mean absolute error metric `MAE` and its normaliser `g`
    (to_trust/metrics/MAE.py). The consumers' and the providers' value
    histories are dictionaries of lists; the model keeps their lists, in
    dictionary order, as rows indexed by epoch. */
module Mae {
  import opened Errors
  import Arith

  /** The builtin handed to `g`: `min` or `max`. */
  datatype Extremum = Min | Max

  /** `func(x, val)`: Python's `min(x, val)` or `max(x, val)`. */
  function Choose(f: Extremum, x: real, val: real): (r: real)
    ensures r == x || r == val
    ensures f == Min ==> r <= x && r <= val
    ensures f == Max ==> r >= x && r >= val
  {
    if f == Min then (if val < x then val else x)
    else (if val > x then val else x)
  }

  /** The value `g` computes for epoch i from the first n rows: it starts
      at 1 for `min` and -1 for `max` and folds in each row's entry i.
      A row too short to have entry i raises before this value is used,
      so such rows are skipped here. */
  function Extreme(f: Extremum, rows: seq<seq<real>>, i: nat, n: nat): real
    requires n <= |rows|
  {
    var start := if f == Min then 1.0 else -1.0;
    if n == 0 then start
    else
      var prev := Extreme(f, rows, i, n - 1);
      if i < |rows[n - 1]| then Choose(f, rows[n - 1][i], prev) else prev
  }

  /** Epoch i of `g(min)` and `g(max)`. */
  function Lo(rows: seq<seq<real>>, i: nat): real
  {
    Extreme(Min, rows, i, |rows|)
  }

  function Hi(rows: seq<seq<real>>, i: nat): real
  {
    Extreme(Max, rows, i, |rows|)
  }

  /** `g(min)` is at most 1 and at most every entry i, `g(max)` at least -1
      and at least every entry i, and each is its start value or one of the
      entries. */
  lemma {:induction false} ExtremeSpec(f: Extremum, rows: seq<seq<real>>, i: nat, n: nat)
    requires n <= |rows|
    ensures var r := Extreme(f, rows, i, n);
      && (f == Min ==> r <= 1.0 && forall k :: 0 <= k < n && i < |rows[k]| ==> r <= rows[k][i])
      && (f == Max ==> r >= -1.0 && forall k :: 0 <= k < n && i < |rows[k]| ==> r >= rows[k][i])
      && (r == (if f == Min then 1.0 else -1.0)
          || exists k :: 0 <= k < n && i < |rows[k]| && r == rows[k][i])
  {
    if n > 0 {
      ExtremeSpec(f, rows, i, n - 1);
    }
  }

  /** Every row has at least `epochs` entries, so no lookup raises. */
  predicate Covers(rows: seq<seq<real>>, epochs: nat)
  {
    forall k :: 0 <= k < |rows| ==> |rows[k]| >= epochs
  }

  /** Every entry of an epoch lies between `g(min)` and `g(max)` of it. */
  lemma Between(rows: seq<seq<real>>, epochs: nat, i: nat, k: nat)
    requires Covers(rows, epochs) && i < epochs && k < |rows|
    ensures Lo(rows, i) <= rows[k][i] <= Hi(rows, i)
    ensures Lo(rows, i) <= 1.0 && Hi(rows, i) >= -1.0
  {
    ExtremeSpec(Min, rows, i, |rows|);
    ExtremeSpec(Max, rows, i, |rows|);
  }

  /** `g(func, providers, epochs)`: IndexError when some row is shorter than
      `epochs`; otherwise one value per epoch, `Extreme` of all rows. */
  method G(f: Extremum, rows: seq<seq<real>>, epochs: nat) returns (r: Result<seq<real>>)
    ensures r.Ok? <==> Covers(rows, epochs)
    ensures r.Err? ==> r.error == IndexError
    ensures r.Ok? ==> |r.value| == epochs
    ensures r.Ok? ==> forall i :: 0 <= i < epochs ==> r.value[i] == Extreme(f, rows, i, |rows|)
  {
    var vals: seq<real> := [];
    for i := 0 to epochs
      invariant |vals| == i
      invariant forall j :: 0 <= j < i ==> vals[j] == Extreme(f, rows, j, |rows|)
      invariant forall k :: 0 <= k < |rows| ==> |rows[k]| >= i
    {
      var val := if f == Min then 1.0 else -1.0;
      for p := 0 to |rows|
        invariant val == Extreme(f, rows, i, p)
        invariant forall k :: 0 <= k < p ==> |rows[k]| > i
      {
        if |rows[p]| <= i {
          return Err(IndexError);
        }
        val := Choose(f, rows[p][i], val);
      }
      vals := vals + [val];
    }
    r := Ok(vals);
  }

  /** The accumulation over the first n consumers at epoch i, with `lo` and
      `hi` the epoch's `g(min)` and `g(max)`: a short consumer row raises
      IndexError (its entry is read first), equal bounds raise
      ZeroDivision. */
  function EpochTotal(cs: seq<seq<real>>, lo: real, hi: real, i: nat, n: nat): Result<real>
    requires n <= |cs|
  {
    if n == 0 then Ok(0.0)
    else
      var prev := EpochTotal(cs, lo, hi, i, n - 1);
      if prev.Err? then prev
      else if |cs[n - 1]| <= i then Err(IndexError)
      else if hi == lo then Err(ZeroDivision)
      else Ok(prev.value + (cs[n - 1][i] - lo) / (hi - lo))
  }

  /** `total` after the first m epochs, over every consumer. */
  function Total(cs: seq<seq<real>>, ps: seq<seq<real>>, m: nat): Result<real>
  {
    if m == 0 then Ok(0.0)
    else
      var prev := Total(cs, ps, m - 1);
      if prev.Err? then prev
      else
        var e := EpochTotal(cs, Lo(ps, m - 1), Hi(ps, m - 1), m - 1, |cs|);
        if e.Err? then e else Ok(prev.value + e.value)
  }

  /** What `MAE(consumers, providers, epochs)` returns or raises. The first
      term already calls `g`, which raises IndexError on a short provider
      row; with no term at all, `total / (T * N)` raises ZeroDivision. */
  function MaeOf(cs: seq<seq<real>>, ps: seq<seq<real>>, epochs: nat): Result<real>
  {
    if epochs > 0 && |cs| > 0 && !Covers(ps, epochs) then Err(IndexError)
    else if epochs * |cs| == 0 then Err(ZeroDivision)
    else
      var t := Total(cs, ps, epochs);
      if t.Err? then t else Ok(1.0 - t.value / (epochs * |cs|) as real)
  }

  /** A failed accumulation stays failed with the same error. */
  lemma {:induction false} EpochKeepError(cs: seq<seq<real>>, lo: real, hi: real, i: nat, c: nat, n: nat)
    requires c <= n <= |cs| && EpochTotal(cs, lo, hi, i, c).Err?
    ensures EpochTotal(cs, lo, hi, i, n) == EpochTotal(cs, lo, hi, i, c)
  {
    if c < n {
      EpochKeepError(cs, lo, hi, i, c, n - 1);
    }
  }

  lemma {:induction false} TotalKeepError(cs: seq<seq<real>>, ps: seq<seq<real>>, m: nat, n: nat)
    requires m <= n && Total(cs, ps, m).Err?
    ensures Total(cs, ps, n) == Total(cs, ps, m)
  {
    if m < n {
      TotalKeepError(cs, ps, m, n - 1);
    }
  }

  /** The first failing term at epoch i and consumer c decides the error of
      the whole metric. */
  lemma FailAt(cs: seq<seq<real>>, ps: seq<seq<real>>, epochs: nat, i: nat, c: nat, e: Error)
    requires Covers(ps, epochs) && i < epochs && c < |cs|
    requires Total(cs, ps, i).Ok?
    requires EpochTotal(cs, Lo(ps, i), Hi(ps, i), i, c + 1) == Err(e)
    ensures MaeOf(cs, ps, epochs) == Err(e)
  {
    EpochKeepError(cs, Lo(ps, i), Hi(ps, i), i, c + 1, |cs|);
    TotalKeepError(cs, ps, i + 1, epochs);
  }

  /** `MAE`: for every epoch and consumer the normalised distance above the
      epoch's minimum is added up, and the metric is one minus its mean.
      `g` is called afresh for every term; each call returns the same list,
      so the bounds are computed once per term here. */
  method ComputeMae(cs: seq<seq<real>>, ps: seq<seq<real>>, epochs: nat) returns (r: Result<real>)
    ensures r == MaeOf(cs, ps, epochs)
  {
    var total := 0.0;
    for i := 0 to epochs
      invariant Total(cs, ps, i) == Ok(total)
      invariant |cs| > 0 && i > 0 ==> Covers(ps, epochs)
    {
      ghost var before := total;
      for c := 0 to |cs|
        invariant EpochTotal(cs, Lo(ps, i), Hi(ps, i), i, c) == Ok(total - before)
        invariant (c > 0 || i > 0) && |cs| > 0 ==> Covers(ps, epochs)
      {
        if |cs[c]| <= i {
          if Covers(ps, epochs) {
            FailAt(cs, ps, epochs, i, c, IndexError);
          }
          return Err(IndexError);
        }
        var lo := G(Min, ps, epochs);
        if lo.Err? {
          return Err(IndexError);
        }
        var hi := G(Max, ps, epochs);
        assert hi.Ok?;
        var den := hi.value[i] - lo.value[i];
        if den == 0.0 {
          FailAt(cs, ps, epochs, i, c, ZeroDivision);
          return Err(ZeroDivision);
        }
        total := total + (cs[c][i] - lo.value[i]) / den;
      }
    }
    if epochs * |cs| == 0 {
      return Err(ZeroDivision);
    }
    r := Ok(1.0 - total / (epochs * |cs|) as real);
  }

  /** Epoch i adds up without raising exactly when every consumer row has
      entry i and, unless there is no consumer, the bounds differ. */
  lemma {:induction false} EpochOkIff(cs: seq<seq<real>>, lo: real, hi: real, i: nat, n: nat)
    requires n <= |cs|
    ensures EpochTotal(cs, lo, hi, i, n).Ok? <==>
      (forall c :: 0 <= c < n ==> i < |cs[c]|) && (n == 0 || hi != lo)
    ensures EpochTotal(cs, lo, hi, i, n).Err? ==>
      EpochTotal(cs, lo, hi, i, n).error == IndexError || EpochTotal(cs, lo, hi, i, n).error == ZeroDivision
  {
    if n > 0 {
      EpochOkIff(cs, lo, hi, i, n - 1);
    }
  }

  /** The first m epochs add up without raising exactly when each of them
      does. */
  lemma {:induction false} TotalOkIff(cs: seq<seq<real>>, ps: seq<seq<real>>, m: nat)
    ensures Total(cs, ps, m).Ok? <==>
      forall j :: 0 <= j < m ==> EpochTotal(cs, Lo(ps, j), Hi(ps, j), j, |cs|).Ok?
    ensures Total(cs, ps, m).Err? ==>
      Total(cs, ps, m).error == IndexError || Total(cs, ps, m).error == ZeroDivision
  {
    if m > 0 {
      TotalOkIff(cs, ps, m - 1);
      EpochOkIff(cs, Lo(ps, m - 1), Hi(ps, m - 1), m - 1, |cs|);
    }
  }

  /** An epoch whose `g(max)` equals its `g(min)`. */
  predicate Flat(ps: seq<seq<real>>, i: nat)
  {
    Hi(ps, i) == Lo(ps, i)
  }

  /** The metric is defined exactly when there is at least one epoch and
      one consumer, every row of both is long enough, and no epoch is flat.
      It only ever raises IndexError or ZeroDivision. */
  lemma MaeOkIff(cs: seq<seq<real>>, ps: seq<seq<real>>, epochs: nat)
    ensures MaeOf(cs, ps, epochs).Ok? <==>
      && epochs > 0 && |cs| > 0
      && Covers(ps, epochs) && Covers(cs, epochs)
      && forall i :: 0 <= i < epochs ==> !Flat(ps, i)
    ensures MaeOf(cs, ps, epochs).Err? ==>
      MaeOf(cs, ps, epochs).error == IndexError || MaeOf(cs, ps, epochs).error == ZeroDivision
  {
    TotalOkIff(cs, ps, epochs);
    if epochs > 0 && |cs| > 0 && Covers(ps, epochs) {
      forall j | 0 <= j < epochs
        ensures EpochTotal(cs, Lo(ps, j), Hi(ps, j), j, |cs|).Ok? <==>
          (forall c :: 0 <= c < |cs| ==> j < |cs[c]|) && !Flat(ps, j)
      {
        EpochOkIff(cs, Lo(ps, j), Hi(ps, j), j, |cs|);
      }
      if !Covers(cs, epochs) {
        var c :| 0 <= c < |cs| && |cs[c]| < epochs;
        var j := |cs[c]|;
        assert !(j < |cs[c]|);
      }
    }
  }

  /** With no epoch or no consumer the final division raises
      ZeroDivision; with full rows, a flat epoch raises it too. */
  lemma MaeZeroDivision(cs: seq<seq<real>>, ps: seq<seq<real>>, epochs: nat, i: nat)
    requires epochs == 0 || |cs| == 0 || (Covers(ps, epochs) && Covers(cs, epochs) && i < epochs && Flat(ps, i))
    ensures MaeOf(cs, ps, epochs) == Err(ZeroDivision)
  {
    if epochs > 0 && |cs| > 0 {
      FirstFlat(cs, ps, epochs, i);
    }
  }

  /** With full rows the first flat epoch up to i fails the accumulation
      with ZeroDivision. */
  lemma {:induction false} FirstFlat(cs: seq<seq<real>>, ps: seq<seq<real>>, epochs: nat, i: nat)
    requires Covers(ps, epochs) && Covers(cs, epochs) && 0 < |cs| && i < epochs && Flat(ps, i)
    ensures MaeOf(cs, ps, epochs) == Err(ZeroDivision)
  {
    TotalOkIff(cs, ps, i);
    if Total(cs, ps, i).Ok? {
      assert EpochTotal(cs, Lo(ps, i), Hi(ps, i), i, 1) == Err(ZeroDivision);
      FailAt(cs, ps, epochs, i, 0, ZeroDivision);
    } else {
      var j :| 0 <= j < i && EpochTotal(cs, Lo(ps, j), Hi(ps, j), j, |cs|).Err?;
      EpochOkIff(cs, Lo(ps, j), Hi(ps, j), j, |cs|);
      FirstFlat(cs, ps, epochs, j);
    }
  }

  /** Consumer values inside their epoch's bounds contribute between 0 and
      1 each. */
  lemma {:induction false} EpochBounds(cs: seq<seq<real>>, lo: real, hi: real, i: nat, n: nat)
    requires n <= |cs| && EpochTotal(cs, lo, hi, i, n).Ok?
    requires forall c :: 0 <= c < n && i < |cs[c]| ==> lo <= cs[c][i] <= hi
    ensures 0.0 <= EpochTotal(cs, lo, hi, i, n).value <= n as real
  {
    if n > 0 {
      EpochBounds(cs, lo, hi, i, n - 1);
      var v := cs[n - 1][i];
      if lo < hi {
        Arith.QuotientBetween(v - lo, hi - lo, 0.0, 1.0);
      }
    }
  }

  lemma {:induction false} TotalBounds(cs: seq<seq<real>>, ps: seq<seq<real>>, m: nat)
    requires Total(cs, ps, m).Ok?
    requires forall j, c :: 0 <= j < m && 0 <= c < |cs| && j < |cs[c]| ==> Lo(ps, j) <= cs[c][j] <= Hi(ps, j)
    ensures 0.0 <= Total(cs, ps, m).value <= (m * |cs|) as real
  {
    if m > 0 {
      TotalBounds(cs, ps, m - 1);
      EpochBounds(cs, Lo(ps, m - 1), Hi(ps, m - 1), m - 1, |cs|);
      OneMoreRow(m, |cs|);
    }
  }

  /** m epochs of n terms are m-1 epochs of them and n more. */
  lemma OneMoreRow(m: nat, n: nat)
    requires m > 0
    ensures (((m - 1) * n) as real) + n as real == (m * n) as real
  {
    assert (m - 1) * n + n == m * n;
  }

  /** When every consumer value lies between its epoch's `g(min)` and
      `g(max)`, a defined metric lies in [0, 1]. */
  lemma MaeInUnit(cs: seq<seq<real>>, ps: seq<seq<real>>, epochs: nat)
    requires MaeOf(cs, ps, epochs).Ok?
    requires forall j, c :: 0 <= j < epochs && 0 <= c < |cs| && j < |cs[c]| ==> Lo(ps, j) <= cs[c][j] <= Hi(ps, j)
    ensures 0.0 <= MaeOf(cs, ps, epochs).value <= 1.0
  {
    TotalBounds(cs, ps, epochs);
    var t := Total(cs, ps, epochs).value;
    var s := (epochs * |cs|) as real;
    assert 0.0 * s <= t <= 1.0 * s;
    Arith.QuotientBetween(t, s, 0.0, 1.0);
  }

  /** Consumers sitting on the epoch's `g(min)` add nothing, those on its
      `g(max)` add one each. */
  lemma {:induction false} EpochExtremes(cs: seq<seq<real>>, lo: real, hi: real, i: nat, n: nat, atTop: bool)
    requires n <= |cs| && EpochTotal(cs, lo, hi, i, n).Ok?
    requires forall c :: 0 <= c < n && i < |cs[c]| ==> cs[c][i] == if atTop then hi else lo
    ensures EpochTotal(cs, lo, hi, i, n).value == if atTop then n as real else 0.0
  {
    if n > 0 {
      EpochExtremes(cs, lo, hi, i, n - 1, atTop);
      if i < |cs[n - 1]| && hi != lo {
        if atTop {
          Arith.CancelFactor(hi - lo, 1.0, hi - lo);
        } else {
          Arith.CancelFactor(0.0, 0.0, hi - lo);
        }
      }
    }
  }

  lemma {:induction false} TotalExtremes(cs: seq<seq<real>>, ps: seq<seq<real>>, m: nat, atTop: bool)
    requires Total(cs, ps, m).Ok?
    requires forall j, c :: 0 <= j < m && 0 <= c < |cs| && j < |cs[c]| ==>
      cs[c][j] == if atTop then Hi(ps, j) else Lo(ps, j)
    ensures Total(cs, ps, m).value == if atTop then (m * |cs|) as real else 0.0
  {
    if m > 0 {
      TotalExtremes(cs, ps, m - 1, atTop);
      EpochExtremes(cs, Lo(ps, m - 1), Hi(ps, m - 1), m - 1, |cs|, atTop);
      OneMoreRow(m, |cs|);
    }
  }

  /** The metric is 1 when every consumer value is its epoch's minimum and
      0 when every one is its epoch's maximum. */
  lemma MaeExtremes(cs: seq<seq<real>>, ps: seq<seq<real>>, epochs: nat, atTop: bool)
    requires MaeOf(cs, ps, epochs).Ok?
    requires forall j, c :: 0 <= j < epochs && 0 <= c < |cs| && j < |cs[c]| ==>
      cs[c][j] == if atTop then Hi(ps, j) else Lo(ps, j)
    ensures MaeOf(cs, ps, epochs).value == if atTop then 0.0 else 1.0
  {
    TotalExtremes(cs, ps, epochs, atTop);
  }
}
