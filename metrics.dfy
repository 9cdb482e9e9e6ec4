/** The metric registry `MetricSystem` (to_trust/metrics/metrics.py): a
    dictionary from metric names to metric functions, filled by the
    `register` decorator, and the helper `average`. A metric takes the
    consumers' and the providers' value rows and the number of epochs. */
module Metrics {
  import opened Errors
  import opened Collections
  import Arith
  import Mae

  /** `MetricFunction`; a metric may raise, so it yields a Result. */
  type MetricFunction = (seq<seq<real>>, seq<seq<real>>, nat) -> Result<real>

  /** The registry. `_metric_methods` is a class attribute, shared by every
      instance, so one object stands for it. */
  class MetricSystem {
    var methods: map<string, MetricFunction>

    constructor ()
      ensures methods == map[]
    {
      methods := map[];
    }

    /** `register(name)(func)`: the wrapper that forwards its arguments to
        func is stored under name, replacing an earlier entry of that name,
        and returned. */
    method Register(name: string, func: MetricFunction) returns (wrapper: MetricFunction)
      modifies this
      ensures methods == old(methods)[name := wrapper]
      ensures forall cs, ps, epochs :: wrapper(cs, ps, epochs) == func(cs, ps, epochs)
    {
      wrapper := (cs: seq<seq<real>>, ps: seq<seq<real>>, epochs: nat) => func(cs, ps, epochs);
      methods := methods[name := wrapper];
    }

    /** The decorator on `MAE`: afterwards the entry "MAE" computes the mean
        absolute error, and every other entry is as before. */
    method RegisterMae()
      modifies this
      ensures "MAE" in methods
      ensures forall cs, ps, epochs :: methods["MAE"](cs, ps, epochs) == Mae.MaeOf(cs, ps, epochs)
      ensures forall n :: n != "MAE" ==> (n in methods <==> n in old(methods))
      ensures forall n :: n != "MAE" && n in methods ==> methods[n] == old(methods)[n]
    {
      var _ := Register("MAE", Mae.MaeOf);
    }
  }

  /** The sum of each agent's list, in agent order. */
  function RowSums(agents: seq<seq<real>>): (r: seq<real>)
    ensures |r| == |agents|
    ensures forall i :: 0 <= i < |agents| ==> r[i] == Sum(agents[i])
  {
    seq(|agents|, i requires 0 <= i < |agents| => Sum(agents[i]))
  }

  /** `average(agents)`: the sum of every agent's list, summed over the
      agents and divided by their number; no agents raise ZeroDivision. */
  function Average(agents: seq<seq<real>>): (r: Result<real>)
    ensures r.Err? <==> agents == []
    ensures r.Err? ==> r.error == ZeroDivision
  {
    if |agents| == 0 then Err(ZeroDivision)
    else Ok(Sum(RowSums(agents)) / |agents| as real)
  }

  /** When every agent's list sums to between lo and hi, so does the
      average. */
  lemma AverageBounds(agents: seq<seq<real>>, lo: real, hi: real)
    requires agents != []
    requires forall i :: 0 <= i < |agents| ==> lo <= Sum(agents[i]) <= hi
    ensures lo <= Average(agents).value <= hi
  {
    MeanBounds(RowSums(agents), lo, hi);
  }

  /** The mean of values between lo and hi lies between lo and hi. */
  lemma MeanBounds(sums: seq<real>, lo: real, hi: real)
    requires sums != []
    requires forall i :: 0 <= i < |sums| ==> lo <= sums[i] <= hi
    ensures lo <= Sum(sums) / |sums| as real <= hi
  {
    SumBounds(sums, lo, hi);
    MeanOf(Sum(sums), |sums|, lo, hi);
  }

  /** A total between n*lo and n*hi has its mean between lo and hi. */
  lemma MeanOf(total: real, n: nat, lo: real, hi: real)
    requires n > 0 && n as real * lo <= total <= n as real * hi
    ensures lo <= total / n as real <= hi
  {
    Arith.QuotientBetween(total, n as real, lo, hi);
  }

  /** The average does not depend on the order of the agents. */
  lemma AverageOrderIndependent(a: seq<seq<real>>, b: seq<seq<real>>)
    requires multiset(a) == multiset(b)
    ensures Average(a) == Average(b)
  {
    var f := (row: seq<real>) => Sum(row);
    ProjectPermutation(a, b, f);
    assert RowSums(a) == Project(a, f);
    assert RowSums(b) == Project(b, f);
    SumPermutation(RowSums(a), RowSums(b));
    assert |a| == |multiset(a)| == |b|;
  }
}
