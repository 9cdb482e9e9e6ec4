/** The example trust method `ExampleNtcm.calc`
    (to_trust/methods/Example/example_ntcm.py): the consumer's own score
    plus the mean of the witnesses' testimonies. */
module ExampleNtcm {
  import opened Errors
  import opened Collections
  import Arith
  import TestbedAgents

  /** The value stored under k, or 0 for a key the map lacks. */
  function Lookup(m: map<nat, real>, k: nat): real
  {
    if k in m then m[k] else 0.0
  }

  /** `testimonies.values()`, in insertion order. */
  function Values(t: ODict<nat, real>): seq<real>
  {
    Project(t.keys, k => Lookup(t.values, k))
  }

  /** `calc(score, testimonies)`: ZeroDivision without testimonies,
      otherwise the score plus the mean testimony. */
  function Calc(score: real, t: ODict<nat, real>): (r: Result<real>)
    ensures r.Err? <==> |t.keys| == 0
    ensures r.Err? ==> r.error == ZeroDivision
  {
    if |t.keys| == 0 then Err(ZeroDivision)
    else Ok(score + Sum(Values(t)) / |t.keys| as real)
  }

  /** When every testimony is c, the result is the score plus c. */
  lemma ConstantTestimonies(score: real, t: ODict<nat, real>, c: real)
    requires |t.keys| > 0
    requires forall k :: k in t.keys ==> k in t.values && t.values[k] == c
    ensures Calc(score, t) == Ok(score + c)
  {
    var vs := Values(t);
    SumConst(vs, c);
    var n := |t.keys| as real;
    assert Sum(vs) == c * n;
    Arith.CancelFactor(Sum(vs), c, n);
  }

  /** The result does not depend on the order in which the testimonies
      were inserted. */
  lemma OrderIndependent(score: real, t: ODict<nat, real>, u: ODict<nat, real>)
    requires t.values == u.values && multiset(t.keys) == multiset(u.keys)
    ensures Calc(score, t) == Calc(score, u)
  {
    var f := k => Lookup(t.values, k);
    ProjectPermutation(t.keys, u.keys, f);
    assert Values(u) == Project(u.keys, f);
    SumPermutation(Values(t), Values(u));
    assert |t.keys| == |multiset(t.keys)| == |u.keys|;
  }

  /** Plugged into the testbed consumer, the example method fails with
      ZeroDivision exactly when there are no witnesses to ask. */
  lemma FailsWithoutWitnesses(score: real, ws: seq<nat>, opinion: (nat, TestbedAgents.Provider) -> real,
                              p: TestbedAgents.Provider)
    ensures Calc(score, TestbedAgents.Testimonies(ws, opinion, p)) == Err(ZeroDivision) <==> ws == []
  {
    var t := TestbedAgents.Testimonies(ws, opinion, p);
    TestbedAgents.TestimoniesSpec(ws, opinion, p, |ws|);
    assert ws[..|ws|] == ws;
    if ws != [] {
      assert ws[0] in t.values;
    }
  }
}
