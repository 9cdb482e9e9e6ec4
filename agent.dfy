/** Agents and collusion rings. A ring is one list object shared by
    reference among its members; every agent holds a reference to the ring
    it belongs to (or to an empty list of its own). */
module Agents {
  import opened Errors

  /** What a ring list holds: the identity of an agent. */
  datatype AgentId = ProviderAgent(pid: nat) | WitnessAgent(wid: nat) | ConsumerAgent(cid: nat)

  /** How a dishonest witness distorts its opinion: exactly two variants. */
  datatype LyingMode = Fixed | Bonus

  /** Position of the first occurrence of x in s. */
  function FirstIndex<T(==)>(s: seq<T>, x: T): (i: nat)
    requires x in s
    ensures i < |s| && s[i] == x && x !in s[..i]
  {
    if s[0] == x then 0
    else
      assert s[1..][..FirstIndex(s[1..], x)] == s[1..FirstIndex(s[1..], x) + 1];
      1 + FirstIndex(s[1..], x)
  }

  /** Python's `list.remove(x)`, on a list that holds x. */
  function RemoveFirst<T(==)>(s: seq<T>, x: T): seq<T>
    requires x in s
  {
    if s[0] == x then s[1..] else [s[0]] + RemoveFirst(s[1..], x)
  }

  /** `list.remove(x)` cuts out exactly the first occurrence of x. */
  lemma {:induction false} RemoveFirstAt<T>(s: seq<T>, x: T)
    requires x in s
    ensures var i := FirstIndex(s, x); RemoveFirst(s, x) == s[..i] + s[i + 1..]
  {
    if s[0] != x {
      var t := s[1..];
      RemoveFirstAt(t, x);
      var j := FirstIndex(t, x);
      assert FirstIndex(s, x) == j + 1;
      calc {
        RemoveFirst(s, x);
        [s[0]] + RemoveFirst(t, x);
        [s[0]] + (t[..j] + t[j + 1..]);
        ([s[0]] + t[..j]) + t[j + 1..];
        { assert [s[0]] + t[..j] == s[..j + 1]; assert t[j + 1..] == s[j + 2..]; }
        s[..j + 1] + s[j + 2..];
      }
    }
  }

  /** So the list is one shorter and holds one x fewer. */
  lemma RemoveFirstSpec<T>(s: seq<T>, x: T)
    requires x in s
    ensures |RemoveFirst(s, x)| == |s| - 1
    ensures multiset(RemoveFirst(s, x)) == multiset(s) - multiset{x}
  {
    RemoveFirstAt(s, x);
    var i := FirstIndex(s, x);
    assert s == s[..i] + [x] + s[i + 1..];
    assert multiset(s) == multiset(s[..i]) + multiset{x} + multiset(s[i + 1..]);
  }

  /** A ring list, shared by reference among its members. */
  class Ring {
    var members: seq<AgentId>

    constructor ()
      ensures members == []
    {
      members := [];
    }
  }

  /** The base of every witness, provider and consumer. */
  class Agent {
    const id: AgentId
    var ring: Ring

    /** Agents start outside any ring, holding an empty list of their own. */
    constructor (id: AgentId)
      ensures this.id == id && fresh(ring) && ring.members == []
    {
      this.id := id;
      ring := new Ring();
    }

    /** `self.ring.remove(self); self.ring = []`. The shared list loses the
        first occurrence of this agent and this agent gets a fresh empty
        list; an agent absent from its list raises ValueError and nothing
        changes. */
    method RemoveFromRing() returns (r: Outcome)
      modifies this, ring
      ensures old(id in ring.members) ==>
        && r == Pass
        && old(ring).members == RemoveFirst(old(ring.members), id)
        && fresh(ring) && ring.members == []
      ensures !old(id in ring.members) ==>
        r == Fail(ValueError) && ring == old(ring) && ring.members == old(ring.members)
    {
      if id in ring.members {
        ring.members := RemoveFirst(ring.members, id);
        ring := new Ring();
        r := Pass;
      } else {
        r := Fail(ValueError);
      }
    }
  }

  /** `Agent.update` raises ToDoException unless a subclass overrides it. */
  function BaseUpdate(): (r: Outcome)
    ensures r == Fail(ToDo)
  {
    Fail(ToDo)
  }

  /** When one member leaves, every other member still refers to the same
      shared list, which is now one element shorter; only the leaving
      agent's reference is replaced by an empty list. */
  method RemovalSeenByOtherMembers(leaving: Agent, other: Agent) returns (r: Outcome)
    requires leaving != other && leaving.ring == other.ring
    requires leaving.id in leaving.ring.members
    modifies leaving, leaving.ring
    ensures r == Pass
    ensures other.ring == old(other.ring)
    ensures |other.ring.members| == old(|other.ring.members|) - 1
    ensures leaving.ring != other.ring && leaving.ring.members == []
  {
    r := leaving.RemoveFromRing();
    RemoveFirstSpec(old(leaving.ring.members), leaving.id);
  }

  /** Removing an agent a second time fails: its own list is empty by then. */
  method SecondRemovalFails(a: Agent) returns (first: Outcome, second: Outcome)
    requires a.id in a.ring.members
    modifies a, a.ring
    ensures first == Pass && second == Fail(ValueError)
  {
    first := a.RemoveFromRing();
    second := a.RemoveFromRing();
  }
}
