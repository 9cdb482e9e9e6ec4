/** MET: a consumer that keeps a trust network over the witnesses, rates
    every provider it used, and evolves its network by crossover with its
    peers' networks, mutation and greedy acceptance on a fitness that
    compares its own ratings with the witnesses' opinions. */
module Mets {
  import opened Errors
  import opened Arith
  import opened Collections
  import opened Providers
  import opened Consumers

  /** `_rating_history[p]`: the ratings given to p and their average. */
  datatype Rating = Rating(mean: real, history: seq<real>)

  /** `np.average` of a non-empty list. */
  function Average(s: seq<real>): real
    requires |s| > 0
  {
    Sum(s) / |s| as real
  }

  /** One more rating moves the average by the weighted new rating:
      `n * mean' == (n - 1) * mean + x`. */
  lemma AverageStep(s: seq<real>, x: real)
    requires |s| > 0
    ensures (|s| + 1) as real * Average(s + [x]) == |s| as real * Average(s) + x
  {
    assert (s + [x])[..|s + [x]| - 1] == s;
    CancelFactor(Sum(s), Average(s), |s| as real);
    CancelFactor(Sum(s + [x]), Average(s + [x]), (|s| + 1) as real);
  }

  /** `rand.sample(population, k)` as the positions it picks: k distinct
      positions of a population of the given length. */
  predicate IsSample(pick: seq<nat>, len: nat, k: nat)
  {
    && |pick| == k
    && (forall i :: 0 <= i < k ==> pick[i] < len)
    && (forall i, j :: 0 <= i < j < k ==> pick[i] != pick[j])
  }

  /** The elements at the picked positions; a position outside the
      population (which a sample never holds) contributes nothing. */
  function Picked(pop: seq<nat>, pick: seq<nat>): (r: seq<nat>)
    ensures (forall i :: 0 <= i < |pick| ==> pick[i] < |pop|) ==>
      |r| == |pick| && forall i :: 0 <= i < |pick| ==> r[i] == pop[pick[i]]
    ensures forall x :: x in r ==> x in pop
  {
    if pick == [] then []
    else (if pick[0] < |pop| then [pop[pick[0]]] else []) + Picked(pop, pick[1..])
  }

  /** `[w for w in witnesses if w != witness]`. */
  function Others(ws: seq<nat>, w: nat): seq<nat>
  {
    OthersUpTo(ws, w, |ws|)
  }

  /** The filter over the first n witnesses. */
  function OthersUpTo(ws: seq<nat>, w: nat, n: nat): seq<nat>
    requires n <= |ws|
  {
    if n == 0 then [] else OthersUpTo(ws, w, n - 1) + (if ws[n - 1] != w then [ws[n - 1]] else [])
  }

  /** The filter keeps exactly the witnesses other than w. */
  lemma OthersSpec(ws: seq<nat>, w: nat)
    ensures forall x :: x in Others(ws, w) <==> x in ws && x != w
  {
    OthersUpToSpec(ws, w, |ws|);
    assert ws[..|ws|] == ws;
  }

  lemma {:induction false} OthersUpToSpec(ws: seq<nat>, w: nat, n: nat)
    requires n <= |ws|
    ensures forall x :: x in OthersUpTo(ws, w, n) <==> x in ws[..n] && x != w
  {
    if n > 0 {
      OthersUpToSpec(ws, w, n - 1);
      assert ws[..n] == ws[..n - 1] + [ws[n - 1]];
    }
  }

  /** `{w: rand.uniform(0, 1) for w in witnesses}` after the first n
      witnesses, with `draws[i]` the i-th draw: the last draw for a
      witness wins. */
  function TrustMap(ws: seq<nat>, draws: seq<real>, n: nat): (r: map<nat, real>)
    requires n <= |ws| == |draws|
    ensures forall w :: w in r <==> w in ws[..n]
    ensures n == |ws| ==> forall w :: w in ws ==> w in r
  {
    assert n == |ws| ==> ws[..n] == ws;
    if n == 0 then map[]
    else
      assert ws[..n] == ws[..n - 1] + [ws[n - 1]];
      TrustMap(ws, draws, n - 1)[ws[n - 1] := draws[n - 1]]
  }

  /** A trust network row over ws: the chosen witnesses hold their trust
      value, every other witness 1/2. */
  function NetworkRow(ws: seq<nat>, chosen: seq<nat>, trust: map<nat, real>): (row: map<nat, real>)
    requires forall x :: x in ws ==> x in trust
    ensures forall x :: x in row <==> x in ws
    ensures forall x :: x in ws && x in chosen ==> row[x] == trust[x]
    ensures forall x :: x in ws && x !in chosen ==> row[x] == 0.5
  {
    map x | x in ws :: if x in chosen then trust[x] else 0.5
  }

  /** Every witness appears in its own peer row, and always at 1/2, since
      it is never a candidate of its own sample. */
  lemma OwnEntryIsHalf(ws: seq<nat>, w: nat, pick: seq<nat>, trust: map<nat, real>)
    requires w in ws
    requires forall x :: x in ws ==> x in trust
    ensures w in NetworkRow(ws, Picked(Others(ws, w), pick), trust)
    ensures NetworkRow(ws, Picked(Others(ws, w), pick), trust)[w] == 0.5
  {
    OthersSpec(ws, w);
  }

  /** The peer rows after the first n witnesses of the registration loop,
      `picks[j]` being the sample for the j-th witness. */
  function PeerRows(peers: map<nat, map<nat, real>>, ws: seq<nat>, trust: map<nat, real>,
                    picks: seq<seq<nat>>, n: nat): map<nat, map<nat, real>>
    requires n <= |ws| == |picks|
    requires forall x :: x in ws ==> x in trust
  {
    if n == 0 then peers
    else
      var w := ws[n - 1];
      PeerRows(peers, ws, trust, picks, n - 1)[w := NetworkRow(ws, Picked(Others(ws, w), picks[n - 1]), trust)]
  }

  /** After n witnesses, exactly those witnesses and the earlier ones have
      rows, and every other witness keeps its earlier row. */
  lemma {:induction false} PeerRowsKeys(peers: map<nat, map<nat, real>>, ws: seq<nat>, trust: map<nat, real>,
                                        picks: seq<seq<nat>>, n: nat)
    requires n <= |ws| == |picks|
    requires forall x :: x in ws ==> x in trust
    ensures var r := PeerRows(peers, ws, trust, picks, n);
      && (forall w :: w in r <==> w in peers || w in ws[..n])
      && (forall w :: w in peers && w !in ws[..n] ==> r[w] == peers[w])
  {
    if n > 0 {
      PeerRowsKeys(peers, ws, trust, picks, n - 1);
      assert ws[..n] == ws[..n - 1] + [ws[n - 1]];
      var w := ws[n - 1];
      RowAddedStep(peers, PeerRows(peers, ws, trust, picks, n - 1), ws[..n - 1], w,
                   NetworkRow(ws, Picked(Others(ws, w), picks[n - 1]), trust), ws[..n], PeerRows(peers, ws, trust, picks, n));
    }
  }

  /** One more row keeps the facts of PeerRowsKeys, for the witnesses done
      so far followed by w. */
  lemma RowAddedStep(peers: map<nat, map<nat, real>>, prev: map<nat, map<nat, real>>, done: seq<nat>, w: nat,
                     row: map<nat, real>, next: seq<nat>, r: map<nat, map<nat, real>>)
    requires forall x :: x in prev <==> x in peers || x in done
    requires forall x :: x in peers && x !in done ==> prev[x] == peers[x]
    requires next == done + [w] && r == prev[w := row]
    ensures forall x :: x in r <==> x in peers || x in next
    ensures forall x :: x in peers && x !in next ==> r[x] == peers[x]
  {
    assert forall x :: x in next <==> x in done || x == w;
  }

  /** After n witnesses, each of them has a row over every witness in which
      it holds 1/2 itself. */
  lemma {:induction false} PeerRowsOwn(peers: map<nat, map<nat, real>>, ws: seq<nat>, trust: map<nat, real>,
                                       picks: seq<seq<nat>>, n: nat)
    requires n <= |ws| == |picks|
    requires forall x :: x in ws ==> x in trust
    ensures var r := PeerRows(peers, ws, trust, picks, n);
      forall w :: w in ws[..n] ==> w in r && (forall x :: x in r[w] <==> x in ws) && r[w][w] == 0.5
  {
    if n > 0 {
      PeerRowsOwn(peers, ws, trust, picks, n - 1);
      assert ws[..n] == ws[..n - 1] + [ws[n - 1]];
      OwnEntryIsHalf(ws, ws[n - 1], picks[n - 1], trust);
    }
  }

  /** The first witness whose peer sample asks for more witnesses than
      there are others (`rand.sample` raises ValueError there), or |ws|. */
  function FirstShort(ws: seq<nat>, k: nat, n: nat): (r: nat)
    requires n <= |ws|
    ensures r <= n
    ensures forall j :: 0 <= j < r ==> !Short(ws, k, j)
    ensures r < n ==> Short(ws, k, r)
  {
    if n == 0 then 0
    else
      var prev := FirstShort(ws, k, n - 1);
      if prev < n - 1 then prev
      else if Short(ws, k, n - 1) then n - 1
      else n
  }

  /** The first short witness is the one after a run of witnesses that
      are not. */
  lemma {:induction false} FirstShortAt(ws: seq<nat>, k: nat, n: nat, j: nat)
    requires j <= n <= |ws|
    requires forall i :: 0 <= i < j ==> !Short(ws, k, i)
    requires j < n ==> Short(ws, k, j)
    ensures FirstShort(ws, k, n) == j
  {
    if n > j {
      FirstShortAt(ws, k, n - 1, j);
    } else if n > 0 {
      FirstShortAt(ws, k, n - 1, j - 1);
    }
  }

  /** The peer loop of `register_witnesses`, up to the first witness
      whose sample of k others cannot be drawn. */
  method BuildPeers(peers: map<nat, map<nat, real>>, ws: seq<nat>, trust: map<nat, real>, picks: seq<seq<nat>>, k: nat)
    returns (rows: map<nat, map<nat, real>>, r: Outcome)
    requires |picks| == |ws| && forall x :: x in ws ==> x in trust
    ensures rows == PeerRows(peers, ws, trust, picks, FirstShort(ws, k, |ws|))
    ensures r == Pass <==> FirstShort(ws, k, |ws|) == |ws|
    ensures r.Fail? ==> r.error == ValueError
  {
    rows := peers;
    for j := 0 to |ws|
      invariant forall i :: 0 <= i < j ==> !Short(ws, k, i)
      invariant rows == PeerRows(peers, ws, trust, picks, j)
    {
      if Short(ws, k, j) {
        FirstShortAt(ws, k, |ws|, j);
        return rows, Fail(ValueError);
      }
      var w := ws[j];
      rows := rows[w := NetworkRow(ws, Picked(Others(ws, w), picks[j]), trust)];
    }
    FirstShortAt(ws, k, |ws|, |ws|);
    r := Pass;
  }

  /** The j-th witness has fewer than k others to sample from. */
  predicate Short(ws: seq<nat>, k: nat, j: nat)
    requires j < |ws|
  {
    k > |Others(ws, ws[j])|
  }

  /** `temp_score` of `update_provider`: how far the witness's opinion lies
      above the rating the provider's service implies. */
  function Deviation(opinion: real, service: real): real
  {
    opinion - (service + 1.0) / 2.0
  }

  /** The new trust in a witness, by the two branches of `update_provider`. */
  function Blend(trust: real, d: real): (r: real)
  {
    if d > 0.0 then (trust + Abs(d)) / 2.0 else (trust - Abs(d)) / 2.0
  }

  /** Both branches of `update_provider` compute the same thing: the trust
      moves halfway towards the signed deviation. */
  lemma BlendIsHalfway(trust: real, d: real)
    ensures Blend(trust, d) == (trust + d) / 2.0
  {
  }

  /** The entry the crossover reads from the k-th selected peer network
      at witness w: IndexError for a missing selection, KeyError for a
      missing network or entry. */
  function PeerEntry(peers: map<nat, map<nat, real>>, selection: seq<nat>, k: nat, w: nat): (r: Result<real>)
    ensures r.Ok? <==> k < |selection| && selection[k] in peers && w in peers[selection[k]]
    ensures k >= |selection| ==> r == Err(IndexError)
    ensures r.Ok? ==> r.value == peers[selection[k]][w]
  {
    if k >= |selection| then Err(IndexError)
    else if selection[k] !in peers || w !in peers[selection[k]] then Err(KeyError)
    else Ok(peers[selection[k]][w])
  }

  /** The crossover value of witness w: `n0[w] + F * n1[w] - F * n2[w]`
      over the three selected peer networks, read left to right. */
  function Mix(peers: map<nat, map<nat, real>>, selection: seq<nat>, f: real, w: nat): (r: Result<real>)
    ensures r.Ok? <==> PeerEntry(peers, selection, 0, w).Ok? && PeerEntry(peers, selection, 1, w).Ok?
                       && PeerEntry(peers, selection, 2, w).Ok?
    ensures r.Ok? ==> r.value == peers[selection[0]][w] + f * peers[selection[1]][w] - f * peers[selection[2]][w]
  {
    match PeerEntry(peers, selection, 0, w)
    case Err(e) => Err(e)
    case Ok(a) =>
      match PeerEntry(peers, selection, 1, w)
      case Err(e) => Err(e)
      case Ok(b) =>
        match PeerEntry(peers, selection, 2, w)
        case Err(e) => Err(e)
        case Ok(c) => Ok(a + f * b - f * c)
  }

  /** A crossover with three selected peers that all rate every witness
      never fails. */
  lemma MixDefined(peers: map<nat, map<nat, real>>, selection: seq<nat>, f: real, w: nat)
    requires |selection| >= 3
    requires forall k :: 0 <= k < 3 ==> selection[k] in peers && w in peers[selection[k]]
    ensures Mix(peers, selection, f, w).Ok?
  {
    assert selection[0] in peers && w in peers[selection[0]];
    assert selection[1] in peers && w in peers[selection[1]];
    assert selection[2] in peers && w in peers[selection[2]];
  }

  /** The consumer's own rating of p: the average of its ratings, 1/2 for
      a provider it never rated. */
  function ConsumerRating(ratings: map<Provider, Rating>, p: Provider): real
  {
    if p in ratings then ratings[p].mean else 0.5
  }

  /** Over the first n witnesses of a network: how many rate p other than
      1/2, and the sum of those opinions. */
  function Opinions(ws: seq<nat>, opinion: (nat, Provider) -> real, p: Provider, n: nat): (r: (nat, real))
    requires n <= |ws|
    ensures r.0 <= n
  {
    if n == 0 then (0, 0.0)
    else
      var prev := Opinions(ws, opinion, p, n - 1);
      var o := opinion(ws[n - 1], p);
      if o != 0.5 then (prev.0 + 1, prev.1 + o) else prev
  }

  /** When every counted opinion is t, the sum is t per counted witness. */
  lemma {:induction false} OpinionsAgree(ws: seq<nat>, opinion: (nat, Provider) -> real, p: Provider, n: nat, t: real)
    requires n <= |ws|
    requires forall i :: 0 <= i < n && opinion(ws[i], p) != 0.5 ==> opinion(ws[i], p) == t
    ensures Opinions(ws, opinion, p, n).1 == Opinions(ws, opinion, p, n).0 as real * t
  {
    if n > 0 {
      OpinionsAgree(ws, opinion, p, n - 1, t);
    }
  }

  /** The state of `calculate_rating_diff`'s provider loop: the last
      assigned `num_w` (unbound until a rated provider is seen) and the
      accumulated difference. */
  datatype Diff = Diff(num: Option<nat>, total: real)

  /** The provider loop of `calculate_rating_diff` over the first n
      providers: a provider rated other than 1/2 compares its rating with
      the average counted witness opinion (ZeroDivision when no witness
      counts), one rated 1/2 adds nothing. */
  function RatingDiffs(keys: seq<Provider>, ratings: map<Provider, Rating>, ws: seq<nat>,
                       opinion: (nat, Provider) -> real, n: nat): (r: Result<Diff>)
    requires n <= |keys|
    ensures r.Err? ==> r.error == ZeroDivision
    ensures r.Ok? && r.value.num.Some? ==> r.value.num.value > 0
    ensures r.Ok? ==> (r.value.num.None? <==> forall i :: 0 <= i < n ==> ConsumerRating(ratings, keys[i]) == 0.5)
  {
    if n == 0 then Ok(Diff(None, 0.0))
    else
      match RatingDiffs(keys, ratings, ws, opinion, n - 1)
      case Err(e) => Err(e)
      case Ok(d) =>
        var c := ConsumerRating(ratings, keys[n - 1]);
        if c != 0.5 then
          var o := Opinions(ws, opinion, keys[n - 1], |ws|);
          if o.0 == 0 then Err(ZeroDivision)
          else Ok(Diff(Some(o.0), d.total + (c - o.1 / o.0 as real)))
        else Ok(Diff(d.num, d.total + (c - 0.5)))
  }

  /** Once a provider's division fails, the loop stops there. */
  lemma {:induction false} RatingDiffsKeepError(keys: seq<Provider>, ratings: map<Provider, Rating>, ws: seq<nat>,
                                                opinion: (nat, Provider) -> real, i: nat, n: nat)
    requires i <= n <= |keys| && RatingDiffs(keys, ratings, ws, opinion, i).Err?
    ensures RatingDiffs(keys, ratings, ws, opinion, n) == RatingDiffs(keys, ratings, ws, opinion, i)
  {
    if i < n {
      RatingDiffsKeepError(keys, ratings, ws, opinion, i, n - 1);
    }
  }

  /** `calculate_rating_diff`: the last `num_w` and the absolute
      difference; UnboundLocalError when no provider is rated other than
      1/2. */
  function RatingDiff(keys: seq<Provider>, ratings: map<Provider, Rating>, ws: seq<nat>,
                      opinion: (nat, Provider) -> real): (r: Result<(nat, real)>)
    ensures r.Ok? ==> r.value.0 > 0 && r.value.1 >= 0.0
  {
    match RatingDiffs(keys, ratings, ws, opinion, |keys|)
    case Err(e) => Err(e)
    case Ok(d) => if d.num.None? then Err(UnboundLocal) else Ok((d.num.value, Abs(d.total)))
  }

  /** The loop raises UnboundLocalError exactly when every provider is
      rated 1/2 (no division can fail then). */
  lemma {:induction false} UnboundWhenUnrated(keys: seq<Provider>, ratings: map<Provider, Rating>, ws: seq<nat>,
                                              opinion: (nat, Provider) -> real)
    ensures RatingDiff(keys, ratings, ws, opinion) == Err(UnboundLocal)
            <==> forall i :: 0 <= i < |keys| ==> ConsumerRating(ratings, keys[i]) == 0.5
  {
    if forall i :: 0 <= i < |keys| ==> ConsumerRating(ratings, keys[i]) == 0.5 {
      UnratedNeverFails(keys, ratings, ws, opinion, |keys|);
    }
  }

  lemma {:induction false} UnratedNeverFails(keys: seq<Provider>, ratings: map<Provider, Rating>, ws: seq<nat>,
                                             opinion: (nat, Provider) -> real, n: nat)
    requires n <= |keys|
    requires forall i :: 0 <= i < n ==> ConsumerRating(ratings, keys[i]) == 0.5
    ensures RatingDiffs(keys, ratings, ws, opinion, n).Ok?
  {
    if n > 0 {
      UnratedNeverFails(keys, ratings, ws, opinion, n - 1);
    }
  }

  /** The witnesses agree with the consumer when every counted opinion of
      a rated provider equals the consumer's rating; then no division fails
      and the accumulated difference is 0. */
  ghost predicate Agree(keys: seq<Provider>, ratings: map<Provider, Rating>, ws: seq<nat>,
                        opinion: (nat, Provider) -> real, n: nat)
    requires n <= |keys|
  {
    forall i :: 0 <= i < n && ConsumerRating(ratings, keys[i]) != 0.5 ==>
      Opinions(ws, opinion, keys[i], |ws|).0 > 0 &&
      forall j :: 0 <= j < |ws| && opinion(ws[j], keys[i]) != 0.5 ==> opinion(ws[j], keys[i]) == ConsumerRating(ratings, keys[i])
  }

  lemma {:induction false} AgreementCancels(keys: seq<Provider>, ratings: map<Provider, Rating>, ws: seq<nat>,
                                            opinion: (nat, Provider) -> real, n: nat)
    requires n <= |keys| && Agree(keys, ratings, ws, opinion, n)
    ensures RatingDiffs(keys, ratings, ws, opinion, n).Ok?
    ensures RatingDiffs(keys, ratings, ws, opinion, n).value.total == 0.0
  {
    if n > 0 {
      AgreementCancels(keys, ratings, ws, opinion, n - 1);
      var p := keys[n - 1];
      var c := ConsumerRating(ratings, p);
      if c != 0.5 {
        OpinionsAgree(ws, opinion, p, |ws|, c);
        var o := Opinions(ws, opinion, p, |ws|);
        CancelFactor(o.1, c, o.0 as real);
      }
    }
  }

  /** `calculate_fitness`: `(1/m) * diff`. */
  function Fitness(keys: seq<Provider>, ratings: map<Provider, Rating>, ws: seq<nat>,
                   opinion: (nat, Provider) -> real): (r: Result<real>)
    ensures r.Ok? ==> r.value >= 0.0
    ensures r.Err? <==> RatingDiff(keys, ratings, ws, opinion).Err?
    ensures r.Err? ==> r.error == RatingDiff(keys, ratings, ws, opinion).error
  {
    match RatingDiff(keys, ratings, ws, opinion)
    case Err(e) => Err(e)
    case Ok(d) =>
      if d.0 == 0 then Err(ZeroDivision)
      else
        Reciprocal(d.0 as real);
        Ok((1.0 / d.0 as real) * d.1)
  }

  /** Witnesses that agree with every rated provider give fitness 0, the
      best possible. */
  lemma PerfectAgreement(keys: seq<Provider>, ratings: map<Provider, Rating>, ws: seq<nat>,
                         opinion: (nat, Provider) -> real)
    requires Agree(keys, ratings, ws, opinion, |keys|)
    requires exists i :: 0 <= i < |keys| && ConsumerRating(ratings, keys[i]) != 0.5
    ensures Fitness(keys, ratings, ws, opinion) == Ok(0.0)
  {
    AgreementCancels(keys, ratings, ws, opinion, |keys|);
  }

  /** The network `mutation` builds: the same witnesses in the same order,
      every trust value shifted by delta when `shift` holds (the single
      draw was at most `pm`), every value copied otherwise. */
  function Mutate(d: ODict<nat, real>, delta: real, shift: bool): (r: ODict<nat, real>)
    ensures r.keys == d.keys && (forall w :: w in r.values <==> w in d.values)
    ensures ValidDict(d) ==> ValidDict(r)
    ensures forall w :: w in d.values ==> r.values[w] == if shift then d.values[w] + delta else d.values[w]
    ensures !shift ==> r == d
    ensures r == d || forall w :: w in d.values ==> r.values[w] == d.values[w] + delta
  {
    if shift then ODict(d.keys, map w | w in d.values :: d.values[w] + delta) else d
  }

  /** The loop of `mutation`: the network's entries, in order, each
      shifted by delta when shift holds. */
  method MutateAll(network: ODict<nat, real>, delta: real, shift: bool) returns (r: ODict<nat, real>)
    requires ValidDict(network)
    ensures r == Mutate(network, delta, shift)
  {
    var keys := network.keys;
    r := EmptyDict();
    for i := 0 to |keys|
      invariant ValidDict(r) && r.keys == keys[..i]
      invariant forall j :: 0 <= j < i ==>
        r.values[keys[j]] == if shift then network.values[keys[j]] + delta else network.values[keys[j]]
    {
      assert keys[i] !in keys[..i];
      assert keys[..i + 1] == keys[..i] + [keys[i]];
      var v := if shift then network.values[keys[i]] + delta else network.values[keys[i]];
      r := Put(r, keys[i], v);
    }
    assert keys[..|keys|] == keys;
    ghost var m := Mutate(network, delta, shift);
    forall w | w in m.values
      ensures w in r.values && r.values[w] == m.values[w]
    {
      var j :| 0 <= j < |keys| && keys[j] == w;
    }
    assert r.values == m.values;
  }

  /** Distinct witnesses sampled at distinct positions are distinct: the
      network gets exactly k sampled witnesses. */
  lemma SampleDistinct(ws: seq<nat>, pick: seq<nat>, k: nat)
    requires Distinct(ws) && IsSample(pick, |ws|, k)
    ensures Distinct(Picked(ws, pick)) && |Picked(ws, pick)| == k
  {
    var r := Picked(ws, pick);
    forall i, j | 0 <= i < j < k
      ensures r[i] != r[j]
    {
      assert pick[i] != pick[j];
    }
  }

  /** `for k in ks[:n]: d[k] = value(k)`. */
  function PutEach(d: ODict<nat, real>, ks: seq<nat>, value: nat -> real, n: nat): ODict<nat, real>
    requires n <= |ks|
  {
    if n == 0 then d else Put(PutEach(d, ks, value, n - 1), ks[n - 1], value(ks[n - 1]))
  }

  /** Assigning each key keeps the earlier keys in place, gives every
      assigned key its value and leaves every other entry alone. */
  lemma {:induction false} PutEachSpec(d: ODict<nat, real>, ks: seq<nat>, value: nat -> real, n: nat)
    requires n <= |ks| && ValidDict(d)
    ensures var r := PutEach(d, ks, value, n);
      && ValidDict(r) && d.keys <= r.keys
      && (forall x :: x in r.values <==> x in d.values || x in ks[..n])
      && (forall x :: x in ks[..n] ==> r.values[x] == value(x))
      && (forall x :: x !in ks[..n] && x in d.values ==> r.values[x] == d.values[x])
  {
    if n > 0 {
      PutEachSpec(d, ks, value, n - 1);
      assert ks[..n] == ks[..n - 1] + [ks[n - 1]];
      PutEachStep(d, PutEach(d, ks, value, n - 1), ks[..n - 1], ks[n - 1], value, ks[..n], PutEach(d, ks, value, n));
    }
  }

  /** One more entry keeps the facts of PutEachSpec, for the keys put so
      far followed by k. */
  lemma PutEachStep(d: ODict<nat, real>, prev: ODict<nat, real>, done: seq<nat>, k: nat, value: nat -> real,
                    next: seq<nat>, r: ODict<nat, real>)
    requires ValidDict(prev) && d.keys <= prev.keys
    requires forall x :: x in prev.values <==> x in d.values || x in done
    requires forall x :: x in done ==> prev.values[x] == value(x)
    requires forall x :: x !in done && x in d.values ==> prev.values[x] == d.values[x]
    requires next == done + [k] && r == Put(prev, k, value(k))
    ensures ValidDict(r) && d.keys <= r.keys
    ensures forall x :: x in r.values <==> x in d.values || x in next
    ensures forall x :: x in next ==> r.values[x] == value(x)
    ensures forall x :: x !in next && x in d.values ==> r.values[x] == d.values[x]
  {
    assert forall x :: x in next <==> x in done || x == k;
  }

  /** The chosen witnesses at their trust values followed by the leftover
      ones at 1/2 is the network row over all witnesses, added after the
      entries the network already had. */
  lemma NetworkAssembled(d: ODict<nat, real>, ws: seq<nat>, chosen: seq<nat>, rest: seq<nat>,
                         trust: map<nat, real>, value: nat -> real)
    requires ValidDict(d) && forall x :: x in ws ==> x in trust
    requires forall x :: x in chosen ==> x in ws && value(x) == trust[x]
    requires forall x :: x in rest <==> x in ws && x !in chosen
    ensures var after := PutEach(PutEach(d, chosen, value, |chosen|), rest, _ => 0.5, |rest|);
      && ValidDict(after) && d.keys <= after.keys
      && after.values == d.values + NetworkRow(ws, chosen, trust)
  {
    var mid := PutEach(d, chosen, value, |chosen|);
    var after := PutEach(mid, rest, _ => 0.5, |rest|);
    PutEachSpec(d, chosen, value, |chosen|);
    PutEachSpec(mid, rest, _ => 0.5, |rest|);
    assert chosen[..|chosen|] == chosen && rest[..|rest|] == rest;
    RowAssembled(d.values, mid.values, after.values, ws, chosen, rest, trust);
  }

  lemma RowAssembled(before: map<nat, real>, mid: map<nat, real>, after: map<nat, real>,
                     ws: seq<nat>, chosen: seq<nat>, rest: seq<nat>, trust: map<nat, real>)
    requires forall x :: x in ws ==> x in trust
    requires forall x :: x in chosen ==> x in ws
    requires forall x :: x in rest <==> x in ws && x !in chosen
    requires forall x :: x in mid <==> x in before || x in chosen
    requires forall x :: x in chosen ==> mid[x] == trust[x]
    requires forall x :: x !in chosen && x in before ==> mid[x] == before[x]
    requires forall x :: x in after <==> x in mid || x in rest
    requires forall x :: x in rest ==> after[x] == 0.5
    requires forall x :: x !in rest && x in mid ==> after[x] == mid[x]
    ensures after == before + NetworkRow(ws, chosen, trust)
  {
    var row := NetworkRow(ws, chosen, trust);
    forall x | x in after
      ensures x in before + row && after[x] == (before + row)[x]
    {
    }
    assert after.Keys == (before + row).Keys;
  }

  /** The error the tail of `update` ends with: the per-provider average
      divides by the network size and by witnesses times days, and then
      the missing `MAE` list raises AttributeError. */
  function MaeTail(providers: nat, network: nat, witnesses: nat, days: nat): (e: Error)
    ensures providers == 0 ==> e == AttributeError
    ensures providers > 0 && (network == 0 || witnesses * days == 0) ==> e == ZeroDivision
    ensures providers > 0 && network > 0 && witnesses * days > 0 ==> e == AttributeError
  {
    if providers == 0 then AttributeError
    else if network == 0 || witnesses * days == 0 then ZeroDivision
    else AttributeError
  }

  class Met {
    const base: Consumer
    const sizeNetwork: nat
    const pLocal: real
    const cr: real
    const pm: real
    const f: real
    /** `_days`. */
    var days: nat
    /** `_trust_values`: the drawn trust in each registered witness. */
    var trustValues: map<nat, real>
    /** `_consumer_trust_network`: the consumer's trust in each witness. */
    var network: ODict<nat, real>
    /** `_trust_network_dict`: each witness's own trust network. */
    var peers: map<nat, map<nat, real>>
    /** `_rating_history`. */
    var ratings: map<Provider, Rating>
    /** `fitness_score`, set by `update`. */
    var fitness: Option<real>

    ghost predicate Valid()
      reads this, base
    {
      base.Valid() && ValidDict(network)
    }

    /** The constructor. `num_generations`, `delta` and `eta` are stored or
        accepted but never read by the modelled operations (the mutation
        step is an input), so they are not kept. */
    constructor (sizeNetwork: nat, pLocal: real, cr: real, pm: real, f: real)
      ensures Valid() && fresh(base)
      ensures base.witnesses.keys == [] && base.providers.keys == []
      ensures this.sizeNetwork == sizeNetwork && this.pLocal == pLocal && this.cr == cr && this.pm == pm && this.f == f
      ensures days == 0 && trustValues == map[] && network.keys == [] && peers == map[] && ratings == map[]
      ensures fitness == None
    {
      base := new Consumer();
      this.sizeNetwork := sizeNetwork;
      this.pLocal := pLocal;
      this.cr := cr;
      this.pm := pm;
      this.f := f;
      days := 0;
      trustValues := map[];
      network := EmptyDict();
      peers := map[];
      ratings := map[];
      fitness := None;
    }

    /** `choose_provider`: one more day, and the provider at the drawn
        position `pick`; `rand.choice` of no providers raises IndexError. */
    method ChooseProvider(pick: nat) returns (r: Result<Provider>)
      requires Valid()
      requires base.providers.keys != [] ==> pick < |base.providers.keys|
      modifies this`days
      ensures days == old(days) + 1
      ensures base.providers.keys == [] <==> r == Err(IndexError)
      ensures base.providers.keys != [] ==> r == Ok(base.providers.keys[pick])
      ensures r.Ok? ==> r.value in base.providers.values
    {
      days := days + 1;
      if |base.providers.keys| == 0 {
        return Err(IndexError);
      }
      r := Ok(base.providers.keys[pick]);
    }

    /** `update_provider`. Each witness w of the network, the i-th key, is
        trusted halfway towards the deviation of its opinion `opinion(w)`
        from the rating the i-th service draw `service(i)` implies; then the
        rating of one more draw `rating` is appended to p's history and the
        mean recomputed. The score argument is not used. */
    method UpdateProvider(p: Provider, opinion: nat -> real, service: nat -> real, rating: real)
      requires Valid()
      modifies this`network, this`ratings
      ensures Valid()
      ensures network.keys == old(network.keys)
      ensures forall i :: 0 <= i < |network.keys| ==>
        network.values[network.keys[i]]
        == Blend(old(network.values[network.keys[i]]), Deviation(opinion(network.keys[i]), service(i)))
      ensures var h := (if p in old(ratings) then old(ratings)[p].history else []) + [(rating + 1.0) / 2.0];
        ratings == old(ratings)[p := Rating(Average(h), h)]
    {
      var keys := network.keys;
      for i := 0 to |keys|
        invariant network.keys == keys && ValidDict(network) && ratings == old(ratings)
        invariant forall j :: 0 <= j < i ==>
          network.values[keys[j]] == Blend(old(network.values[keys[j]]), Deviation(opinion(keys[j]), service(j)))
        invariant forall j :: i <= j < |keys| ==> network.values[keys[j]] == old(network.values[keys[j]])
      {
        var w := keys[i];
        assert forall j :: 0 <= j < |keys| && j != i ==> keys[j] != w;
        var d := Deviation(opinion(w), service(i));
        if d > 0.0 {
          network := Put(network, w, (network.values[w] + Abs(d)) / 2.0);
        } else {
          network := Put(network, w, (network.values[w] - Abs(d)) / 2.0);
        }
      }
      var h: seq<real>;
      if p in ratings {
        h := ratings[p].history + [(rating + 1.0) / 2.0];
      } else {
        h := [(rating + 1.0) / 2.0];
      }
      ratings := ratings[p := Rating(Average(h), h)];
    }

    /** `mutation` with the polynomial step `delta` and the single draw
        `randK`: a new network with the same witnesses in the same order,
        all shifted by delta when `randK <= pm` and all copied otherwise. */
    method Mutation(delta: real, randK: real) returns (r: ODict<nat, real>)
      requires ValidDict(network)
      ensures ValidDict(r)
      ensures r == Mutate(network, delta, randK <= pm)
    {
      r := MutateAll(network, delta, randK <= pm);
    }

    /** `crossover` with the selected peers and the i-th draw `draws[i]`
        for the i-th witness: a copy of the network where each witness is
        either kept or, when its draw is at most `cr`, replaced by the mix of
        the three selected peer networks; the first failing lookup raises. */
    method Crossover(selection: seq<nat>, draws: seq<real>) returns (r: Result<ODict<nat, real>>)
      requires ValidDict(network) && |draws| == |network.keys|
      ensures r.Ok? <==> forall i :: 0 <= i < |draws| && draws[i] <= cr ==> Mix(peers, selection, f, network.keys[i]).Ok?
      ensures r.Ok? ==> ValidDict(r.value) && r.value.keys == network.keys
      ensures r.Ok? ==> forall i :: 0 <= i < |draws| ==>
        r.value.values[network.keys[i]] == if draws[i] <= cr then Mix(peers, selection, f, network.keys[i]).value
                                           else network.values[network.keys[i]]
      ensures r.Err? ==> exists i :: 0 <= i < |draws| && draws[i] <= cr && Mix(peers, selection, f, network.keys[i]) == Err(r.error)
    {
      var keys := network.keys;
      var temp := network;
      for i := 0 to |keys|
        invariant ValidDict(temp) && temp.keys == keys
        invariant forall j :: 0 <= j < i && draws[j] <= cr ==> Mix(peers, selection, f, keys[j]).Ok?
        invariant forall j :: 0 <= j < i ==>
          temp.values[keys[j]] == if draws[j] <= cr then Mix(peers, selection, f, keys[j]).value else network.values[keys[j]]
        invariant forall j :: i <= j < |keys| ==> temp.values[keys[j]] == network.values[keys[j]]
      {
        var w := keys[i];
        assert forall j :: 0 <= j < |keys| && j != i ==> keys[j] != w;
        if draws[i] <= cr {
          var m := Mix(peers, selection, f, w);
          if m.Err? {
            return Err(m.error);
          }
          temp := Put(temp, w, m.value);
        } else {
          temp := Put(temp, w, network.values[w]);
        }
      }
      r := Ok(temp);
    }

    /** `calculate_rating_diff` over the witnesses ws of a network, with
        `opinion(w, p)` the opinion witness w gives of p. */
    method CalculateRatingDiff(ws: seq<nat>, opinion: (nat, Provider) -> real) returns (r: Result<(nat, real)>)
      ensures r == RatingDiff(base.providers.keys, ratings, ws, opinion)
    {
      var keys := base.providers.keys;
      var num: Option<nat> := None;
      var total := 0.0;
      for i := 0 to |keys|
        invariant RatingDiffs(keys, ratings, ws, opinion, i) == Ok(Diff(num, total))
      {
        var p := keys[i];
        var c := if p in ratings then ratings[p].mean else 0.5;
        var witnessRating: real;
        if c != 0.5 {
          var sum := 0.0;
          var count: nat := 0;
          for j := 0 to |ws|
            invariant Opinions(ws, opinion, p, j) == (count, sum)
          {
            if opinion(ws[j], p) != 0.5 {
              count := count + 1;
              sum := sum + opinion(ws[j], p);
            }
          }
          num := Some(count);
          if count == 0 {
            RatingDiffsKeepError(keys, ratings, ws, opinion, i + 1, |keys|);
            return Err(ZeroDivision);
          }
          witnessRating := sum / count as real;
        } else {
          witnessRating := 0.5;
        }
        total := total + (c - witnessRating);
      }
      if num.None? {
        return Err(UnboundLocal);
      }
      r := Ok((num.value, Abs(total)));
    }

    /** `calculate_fitness`. */
    method CalculateFitness(ws: seq<nat>, opinion: (nat, Provider) -> real) returns (r: Result<real>)
      ensures r == Fitness(base.providers.keys, ratings, ws, opinion)
    {
      var d := CalculateRatingDiff(ws, opinion);
      if d.Err? {
        return Err(d.error);
      }
      var m := d.value.0;
      if m == 0 {
        return Err(ZeroDivision);
      }
      r := Ok((1.0 / m as real) * d.value.1);
      assert Fitness(base.providers.keys, ratings, ws, opinion).value == r.value;
    }

    /** `register_witnesses`. `draws[i]` is the trust drawn for the i-th
        witness, `pick` the positions of the network sample, `rest` the
        order in which the leftover set is iterated, and `picks[j]` the
        positions of the j-th witness's peer sample among the others.
        `rand.sample` raises ValueError when asked for more witnesses than
        it is given. */
    method RegisterWitnesses(ws: seq<nat>, draws: seq<real>, pick: seq<nat>, rest: seq<nat>, picks: seq<seq<nat>>)
      returns (r: Outcome)
      requires Valid()
      requires |draws| == |ws| && |picks| == |ws|
      requires sizeNetwork <= |ws| ==> IsSample(pick, |ws|, sizeNetwork)
      requires sizeNetwork <= |ws| ==> forall x :: x in rest <==> x in ws && x !in Picked(ws, pick)
      modifies base`witnesses, this`trustValues, this`network, this`peers
      ensures Valid()
      ensures base.witnesses == PutAll(old(base.witnesses), ws, None)
      ensures trustValues == TrustMap(ws, draws, |ws|)
      ensures sizeNetwork > |ws| ==> r == Fail(ValueError) && network == old(network) && peers == old(peers)
      ensures sizeNetwork <= |ws| ==>
        && old(network.keys) <= network.keys
        && network.values == old(network.values) + NetworkRow(ws, Picked(ws, pick), trustValues)
        && peers == PeerRows(old(peers), ws, trustValues, picks, FirstShort(ws, sizeNetwork, |ws|))
        && (r == Pass <==> FirstShort(ws, sizeNetwork, |ws|) == |ws|)
        && (r.Fail? ==> r.error == ValueError)
    {
      base.RegisterWitnesses(ws);
      trustValues := TrustMap(ws, draws, |ws|);
      if sizeNetwork > |ws| {
        return Fail(ValueError);
      }
      var chosen := Picked(ws, pick);
      AddToNetwork(chosen, ws, rest);
      var rows;
      rows, r := BuildPeers(peers, ws, trustValues, picks, sizeNetwork);
      peers := rows;
    }

    /** The two network loops of `register_witnesses`: the chosen witnesses
        get their trust value, then every leftover witness 1/2. */
    method AddToNetwork(chosen: seq<nat>, ws: seq<nat>, rest: seq<nat>)
      requires ValidDict(network) && forall x :: x in ws ==> x in trustValues
      requires forall x :: x in chosen ==> x in ws
      requires forall x :: x in rest <==> x in ws && x !in chosen
      modifies this`network
      ensures ValidDict(network)
      ensures old(network.keys) <= network.keys
      ensures network.values == old(network.values) + NetworkRow(ws, chosen, trustValues)
    {
      var trust := trustValues;
      var value := x => if x in trust then trust[x] else 0.5;
      for i := 0 to |chosen|
        invariant network == PutEach(old(network), chosen, value, i)
      {
        network := Put(network, chosen[i], value(chosen[i]));
      }
      ghost var mid := network;
      for i := 0 to |rest|
        invariant network == PutEach(mid, rest, _ => 0.5, i)
      {
        network := Put(network, rest[i], 0.5);
      }
      NetworkAssembled(old(network), ws, chosen, rest, trust, value);
    }

    /** `register_providers` is the inherited registration. */
    method RegisterProviders(ps: seq<Provider>)
      requires Valid()
      modifies base`providers
      ensures Valid()
      ensures base.providers == PutAll(old(base.providers), ps, None)
    {
      base.RegisterProviders(ps);
    }

    /** The candidate peers of `update`: the advisors `select_advisors`
        returned (its similarity test is not modelled, so its result is an
        input) when the draw `local` is under `p_local`, otherwise three
        registered witnesses at the sampled positions `sample`. */
    function Candidates(local: real, advisors: Result<seq<nat>>, sample: seq<nat>): (r: Result<seq<nat>>)
      reads this, base
      ensures local < pLocal ==> r == advisors
      ensures local >= pLocal && |base.witnesses.keys| < 3 ==> r == Err(ValueError)
      ensures local >= pLocal && |base.witnesses.keys| >= 3 && IsSample(sample, |base.witnesses.keys|, 3) ==>
        r.Ok? && |r.value| == 3 && forall x :: x in r.value ==> x in base.witnesses.keys
    {
      if local < pLocal then advisors
      else if |base.witnesses.keys| < 3 then Err(ValueError)
      else Ok(Picked(base.witnesses.keys, sample))
    }

    /** No lookup of `crossover` fails with these peers and draws. */
    predicate CrossoverDefined(selection: seq<nat>, draws: seq<real>)
      reads this
      requires |draws| == |network.keys|
    {
      forall i :: 0 <= i < |draws| && draws[i] <= cr ==> Mix(peers, selection, f, network.keys[i]).Ok?
    }

    /** `update`. The fitness of the current network is computed on the
        opinions `opinion0` and recorded; the candidates are drawn and
        crossed over, but the crossed network is discarded; the mutation of
        the current network is scored on the fresh opinions `opinion1` and
        replaces the network only when its fitness is strictly lower. The
        mean-absolute-error tail then always raises. */
    method Update(opinion0: (nat, Provider) -> real, opinion1: (nat, Provider) -> real, local: real,
                  advisors: Result<seq<nat>>, sample: seq<nat>, draws: seq<real>, delta: real, randK: real)
      returns (r: Outcome)
      requires Valid() && |draws| == |network.keys|
      modifies this`network, this`fitness
      ensures Valid() && network.keys == old(network.keys) && r.Fail?
      ensures var f0 := Fitness(base.providers.keys, ratings, network.keys, opinion0);
        f0.Err? ==> r == Fail(f0.error) && network == old(network) && fitness == old(fitness)
      ensures var f0 := Fitness(base.providers.keys, ratings, network.keys, opinion0);
        var c := Candidates(local, advisors, sample);
        f0.Ok? && c.Err? ==> r == Fail(c.error) && network == old(network) && fitness == Some(f0.value)
      ensures var f0 := Fitness(base.providers.keys, ratings, network.keys, opinion0);
        var f1 := Fitness(base.providers.keys, ratings, network.keys, opinion1);
        f0.Ok? ==>
          || (network == old(network) && fitness == Some(f0.value))
          || (f1.Ok? && f1.value < f0.value && network == Mutate(old(network), delta, randK <= pm) && fitness == Some(f1.value))
      ensures var f0 := Fitness(base.providers.keys, ratings, network.keys, opinion0);
        var f1 := Fitness(base.providers.keys, ratings, network.keys, opinion1);
        var c := Candidates(local, advisors, sample);
        f0.Ok? && f1.Ok? && c.Ok? && old(CrossoverDefined(c.value, draws)) ==>
          && (f1.value < f0.value ==> network == Mutate(old(network), delta, randK <= pm) && fitness == Some(f1.value))
          && (f1.value >= f0.value ==> network == old(network) && fitness == Some(f0.value))
          && r == Fail(MaeTail(|base.providers.keys|, |network.keys|, |base.witnesses.keys|, days))
      ensures opinion0 == opinion1 ==> network == old(network)
    {
      var f0 := CalculateFitness(network.keys, opinion0);
      if f0.Err? {
        return Fail(f0.error);
      }
      fitness := Some(f0.value);
      var c := Candidates(local, advisors, sample);
      if c.Err? {
        return Fail(c.error);
      }
      var crossed := Crossover(c.value, draws);
      if crossed.Err? {
        return Fail(crossed.error);
      }
      var candidate := Mutation(delta, randK);
      var f1 := CalculateFitness(candidate.keys, opinion1);
      if f1.Err? {
        return Fail(f1.error);
      }
      if f1.value < f0.value {
        network := candidate;
        fitness := Some(f1.value);
      }
      r := Fail(MaeTail(|base.providers.keys|, |network.keys|, |base.witnesses.keys|, days));
    }
  }
}
