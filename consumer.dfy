/** The base consumer: registration dicts for witnesses and providers, a score
    cache, and the default choice of provider. Trust methods build on it. */
module Consumers {
  import opened Errors
  import opened Collections
  import opened Providers

  class Consumer {
    /** Witness (by id) to its weight; registration stores None. */
    var witnesses: ODict<nat, Option<real>>
    /** Provider to an optional value; registration stores None. */
    var providers: ODict<Provider, Option<real>>
    var scores: map<Provider, real>

    ghost predicate Valid()
      reads this`witnesses, this`providers
    {
      ValidDict(witnesses) && ValidDict(providers)
    }

    constructor ()
      ensures Valid()
      ensures witnesses.keys == [] && providers.keys == [] && scores == map[]
    {
      witnesses := EmptyDict();
      providers := EmptyDict();
      scores := map[];
    }

    /** `for w in witnesses: self.witnesses[w] = None`. */
    method RegisterWitnesses(ws: seq<nat>)
      requires Valid()
      modifies this`witnesses
      ensures Valid()
      ensures witnesses == PutAll(old(witnesses), ws, None)
    {
      for i := 0 to |ws|
        invariant witnesses == PutAll(old(witnesses), ws[..i], None)
      {
        assert ws[..i + 1][..i] == ws[..i];
        witnesses := Put(witnesses, ws[i], None);
      }
      assert ws[..|ws|] == ws;
      PutAllSpec(old(witnesses), ws, None);
    }

    /** `for p in providers: self.providers[p] = None`. */
    method RegisterProviders(ps: seq<Provider>)
      requires Valid()
      modifies this`providers
      ensures Valid()
      ensures providers == PutAll(old(providers), ps, None)
    {
      for i := 0 to |ps|
        invariant providers == PutAll(old(providers), ps[..i], None)
      {
        assert ps[..i + 1][..i] == ps[..i];
        providers := Put(providers, ps[i], None);
      }
      assert ps[..|ps|] == ps;
      PutAllSpec(old(providers), ps, None);
    }

    /** `score_of`: an unseen provider is cached at 0 first. */
    method ScoreOf(p: Provider) returns (r: real)
      modifies this`scores
      ensures scores == if p in old(scores) then old(scores) else old(scores)[p := 0.0]
      ensures r == scores[p]
    {
      if p !in scores {
        scores := scores[p := 0.0];
      }
      r := scores[p];
    }

    /** The base `choose_provider`: ToDoException with no providers, and
        otherwise the first registered provider. The testimonies it collects
        are discarded. */
    function ChooseProvider(): (r: Result<Provider>)
      requires Valid()
      reads this
      ensures providers.keys == [] <==> r == Err(ToDo)
      ensures r.Ok? ==> r.value == providers.keys[0] && r.value in providers.values
    {
      if |providers.keys| == 0 then Err(ToDo) else Ok(providers.keys[0])
    }

    /** The base `update_provider` raises ToDoException; the base `update`
        returns without effect and needs no member. */
    function UpdateProvider(p: Provider, score: real): (r: Outcome)
      ensures r == Fail(ToDo)
    {
      Fail(ToDo)
    }
  }

  /** A second `score_of` of the same provider returns the same value and
      leaves the cache as the first call left it. */
  method ScoreOfIdempotent(c: Consumer, p: Provider) returns (first: real, second: real)
    modifies c
    ensures first == second
    ensures c.scores == if p in old(c.scores) then old(c.scores) else old(c.scores)[p := 0.0]
  {
    first := c.ScoreOf(p);
    second := c.ScoreOf(p);
  }

  /** Whether every registered provider has a value. */
  predicate AllValued(d: ODict<Provider, Option<real>>)
  {
    forall q :: q in d.values ==> d.values[q].Some?
  }

  /** The scan of `max(d, key=d.get)` over the first n keys: the index of
      the best key so far, replaced only by a strictly greater value; a
      comparison with None raises TypeError. */
  function MaxScan(keys: seq<Provider>, vals: map<Provider, Option<real>>, n: nat): (r: Result<nat>)
    requires 1 <= n <= |keys| && forall k :: k in keys ==> k in vals
    ensures r.Ok? ==> r.value < n
    ensures r.Err? ==> r.error == TypeError
    ensures (forall i :: 0 <= i < n ==> vals[keys[i]].Some?) ==>
      && r.Ok?
      && (forall i :: 0 <= i < n ==> vals[keys[i]].value <= vals[keys[r.value]].value)
      && (forall i :: 0 <= i < r.value ==> vals[keys[i]].value < vals[keys[r.value]].value)
  {
    if n == 1 then Ok(0)
    else
      match MaxScan(keys, vals, n - 1)
      case Err(e) => Err(e)
      case Ok(j) =>
        var x := vals[keys[n - 1]];
        var best := vals[keys[j]];
        if x.None? || best.None? then Err(TypeError)
        else if x.value > best.value then Ok(n - 1)
        else Ok(j)
  }

  /** `max(d, key=d.get)`: ValueError for an empty dict; when every key
      has a value, the first key with the largest value. */
  function MaxProvider(d: ODict<Provider, Option<real>>): (r: Result<Provider>)
    requires ValidDict(d)
    ensures d.keys == [] <==> r == Err(ValueError)
    ensures r.Ok? ==> r.value in d.values
    ensures AllValued(d) && d.keys != [] ==> r.Ok?
    ensures r.Ok? && AllValued(d) ==> forall q :: q in d.values ==> d.values[q].value <= d.values[r.value].value
    ensures r.Ok? && AllValued(d) ==> forall i :: 0 <= i < |d.keys| && d.values[d.keys[i]].value == d.values[r.value].value ==>
      d.keys[i] == r.value || r.value in d.keys[..i]
  {
    if d.keys == [] then Err(ValueError)
    else
      match MaxScan(d.keys, d.values, |d.keys|)
      case Err(e) => Err(e)
      case Ok(j) =>
        assert forall q :: q in d.values ==> exists i :: 0 <= i < |d.keys| && d.keys[i] == q;
        forall i | j < i < |d.keys|
          ensures d.keys[j] in d.keys[..i]
        {
          assert d.keys[..i][j] == d.keys[j];
        }
        Ok(d.keys[j])
  }
}
