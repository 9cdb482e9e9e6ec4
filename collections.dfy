/** Shared vocabulary for the testbed's collections: sums of float lists,
    Python's insertion-ordered dict, and "the first maximal element", which is
    what `max(d, key=...)`, a stable `sorted(..., reverse=True)[0]` and a
    strict `if score > best` scan all return. */
module Collections {

  /** Sum of a list, accumulated left to right as `total += x` does. */
  function Sum(s: seq<real>): real
  {
    if s == [] then 0.0 else Sum(s[..|s| - 1]) + s[|s| - 1]
  }

  lemma {:induction false} SumConcat(a: seq<real>, b: seq<real>)
    ensures Sum(a + b) == Sum(a) + Sum(b)
    decreases |b|
  {
    if b == [] {
      assert a + b == a;
    } else {
      assert (a + b)[..|a + b| - 1] == a + b[..|b| - 1];
      SumConcat(a, b[..|b| - 1]);
    }
  }

  lemma SumSingleton(x: real)
    ensures Sum([x]) == x
  {
    assert [x][..0] == [];
  }

  /** A list whose entries all equal c sums to |s| * c. */
  lemma {:induction false} SumConst(s: seq<real>, c: real)
    requires forall i :: 0 <= i < |s| ==> s[i] == c
    ensures Sum(s) == |s| as real * c
  {
    if s != [] {
      SumConst(s[..|s| - 1], c);
    }
  }

  /** Entries bounded by lo and hi bound the sum by |s|*lo and |s|*hi. */
  lemma {:induction false} SumBounds(s: seq<real>, lo: real, hi: real)
    requires forall i :: 0 <= i < |s| ==> lo <= s[i] <= hi
    ensures |s| as real * lo <= Sum(s) <= |s| as real * hi
  {
    if s != [] {
      SumBounds(s[..|s| - 1], lo, hi);
    }
  }

  lemma {:induction false} SumNonNegative(s: seq<real>)
    requires forall i :: 0 <= i < |s| ==> 0.0 <= s[i]
    ensures 0.0 <= Sum(s)
  {
    if s != [] {
      SumNonNegative(s[..|s| - 1]);
    }
  }

  lemma SumRemoveAt(s: seq<real>, j: nat)
    requires j < |s|
    ensures Sum(s) == Sum(s[..j] + s[j + 1..]) + s[j]
  {
    var left, right := s[..j], s[j + 1..];
    assert s[..j + 1] == left + [s[j]];
    assert s == s[..j + 1] + right;
    SumConcat(s[..j + 1], right);
    SumConcat(left, [s[j]]);
    SumConcat(left, right);
    SumSingleton(s[j]);
  }

  /** The sum does not depend on the order of the entries. */
  lemma {:induction false} SumPermutation(a: seq<real>, b: seq<real>)
    requires multiset(a) == multiset(b)
    ensures Sum(a) == Sum(b)
    decreases |a|
  {
    if a == [] {
      assert |b| == |multiset(b)| == 0;
    } else {
      var x := a[|a| - 1];
      assert a == a[..|a| - 1] + [x];
      assert x in multiset(b);
      var j :| 0 <= j < |b| && b[j] == x;
      assert b == b[..j] + [x] + b[j + 1..];
      var b' := b[..j] + b[j + 1..];
      assert multiset(b) == multiset(b[..j]) + multiset{x} + multiset(b[j + 1..]);
      assert multiset(b') == multiset(b[..j]) + multiset(b[j + 1..]);
      assert multiset(a) == multiset(a[..|a| - 1]) + multiset{x};
      assert multiset(a[..|a| - 1]) == multiset(a) - multiset{x};
      assert multiset(b') == multiset(b) - multiset{x};
      SumPermutation(a[..|a| - 1], b');
      SumRemoveAt(b, j);
    }
  }

  /** Scaling every entry scales the sum. */
  lemma {:induction false} SumScale(s: seq<real>, c: real, scaled: seq<real>)
    requires |scaled| == |s| && forall i :: 0 <= i < |s| ==> scaled[i] == c * s[i]
    ensures Sum(scaled) == c * Sum(s)
  {
    if s != [] {
      SumScale(s[..|s| - 1], c, scaled[..|s| - 1]);
    }
  }

  /** The list of `f(k)` for the keys ks, in the order of ks. */
  function Project<K>(ks: seq<K>, f: K -> real): (r: seq<real>)
    ensures |r| == |ks|
    ensures forall i :: 0 <= i < |ks| ==> r[i] == f(ks[i])
  {
    seq(|ks|, i requires 0 <= i < |ks| => f(ks[i]))
  }

  lemma ProjectConcat<K>(a: seq<K>, b: seq<K>, f: K -> real)
    ensures Project(a + b, f) == Project(a, f) + Project(b, f)
  {
  }

  /** Reordering the keys reorders the projected values the same way. */
  lemma {:induction false} ProjectPermutation<K>(a: seq<K>, b: seq<K>, f: K -> real)
    requires multiset(a) == multiset(b)
    ensures multiset(Project(a, f)) == multiset(Project(b, f))
    decreases |a|
  {
    if a == [] {
      assert |b| == |multiset(b)| == 0;
    } else {
      var x := a[|a| - 1];
      var a' := a[..|a| - 1];
      assert a == a' + [x];
      assert x in multiset(b);
      var j :| 0 <= j < |b| && b[j] == x;
      assert b == b[..j] + [x] + b[j + 1..];
      var b' := b[..j] + b[j + 1..];
      assert multiset(b') == multiset(b) - multiset{x};
      assert multiset(a') == multiset(a) - multiset{x};
      ProjectPermutation(a', b', f);
      ProjectConcat(a', [x], f);
      ProjectConcat(b[..j] + [x], b[j + 1..], f);
      ProjectConcat(b[..j], [x], f);
      ProjectConcat(b[..j], b[j + 1..], f);
    }
  }

  /** Index of the first maximal entry: a later entry replaces the current
      best only when it is strictly greater. */
  function FirstMaxIndex(s: seq<real>): (r: nat)
    requires |s| > 0
    ensures r < |s|
    ensures forall i :: 0 <= i < |s| ==> s[i] <= s[r]
    ensures forall i :: 0 <= i < r ==> s[i] < s[r]
  {
    if |s| == 1 then 0
    else
      var j := FirstMaxIndex(s[..|s| - 1]);
      if s[|s| - 1] > s[j] then |s| - 1 else j
  }

  ghost predicate Distinct<T>(s: seq<T>)
  {
    forall i, j :: 0 <= i < j < |s| ==> s[i] != s[j]
  }

  /** `dict.fromkeys(ks, v)` as a plain map: every key of ks, each mapped
      to v. */
  function FromKeys<K(!new), V>(ks: seq<K>, v: V): (m: map<K, V>)
    ensures forall k :: k in m <==> k in ks
    ensures forall k :: k in m ==> m[k] == v
  {
    map k | k in ks :: v
  }

  /** Python's dict: a map together with the order in which keys were first
      inserted. Assigning to an existing key keeps its position. */
  datatype ODict<K(==), V> = ODict(keys: seq<K>, values: map<K, V>)

  ghost predicate ValidDict<K(!new), V>(d: ODict<K, V>)
  {
    && Distinct(d.keys)
    && (forall k :: k in d.values <==> k in d.keys)
  }

  function EmptyDict<K(!new), V>(): (d: ODict<K, V>)
    ensures ValidDict(d) && d.keys == []
  {
    ODict([], map[])
  }

  /** `d[k] = v`. */
  function Put<K(!new), V>(d: ODict<K, V>, k: K, v: V): (r: ODict<K, V>)
    ensures r.values == d.values[k := v]
    ensures k in d.values ==> r.keys == d.keys
    ensures k !in d.values ==> r.keys == d.keys + [k]
    ensures ValidDict(d) ==> ValidDict(r)
  {
    if k in d.values then ODict(d.keys, d.values[k := v])
    else ODict(d.keys + [k], d.values[k := v])
  }

  /** `for k in ks: d[k] = v`. */
  function PutAll<K(!new), V>(d: ODict<K, V>, ks: seq<K>, v: V): ODict<K, V>
  {
    if ks == [] then d else Put(PutAll(d, ks[..|ks| - 1], v), ks[|ks| - 1], v)
  }

  /** Assigning every key of ks keeps every earlier key in its place, adds
      the new ones after them, maps every key of ks to v and leaves the
      value of every other key alone. */
  lemma {:induction false} PutAllSpec<K(!new), V>(d: ODict<K, V>, ks: seq<K>, v: V)
    requires ValidDict(d)
    ensures var r := PutAll(d, ks, v);
      && ValidDict(r)
      && |d.keys| <= |r.keys| && r.keys[..|d.keys|] == d.keys
      && (forall k :: k in r.values <==> k in d.values || k in ks)
      && (forall k :: k in ks ==> r.values[k] == v)
      && (forall k :: k in d.values && k !in ks ==> r.values[k] == d.values[k])
  {
    if ks != [] {
      var init := ks[..|ks| - 1];
      PutAllSpec(d, init, v);
      var p := PutAll(d, init, v);
      var r := Put(p, ks[|ks| - 1], v);
      assert r.keys[..|d.keys|] == d.keys by {
        assert r.keys[..|p.keys|] == p.keys;
        assert r.keys[..|d.keys|] == p.keys[..|d.keys|];
      }
      forall k ensures k in ks <==> k in init || k == ks[|ks| - 1] {
        assert ks == init + [ks[|ks| - 1]];
      }
    }
  }
}
