/** The consistent-hash ring: nodes at hash values, each owning the keys up to it from the node before. */
module ConsistentHash {
  import opened Wrappers

  /** Going clockwise from h, a is met before b. */
  predicate Before(h: nat, a: nat, b: nat) { if a >= h then b < h || a < b else b < h && a < b }

  /** k is the first of the keys, going clockwise from h. */
  ghost predicate Owns(keys: set<nat>, h: nat, k: nat) {
    k in keys && forall j | j in keys && j != k :: Before(h, k, j)
  }

  /** h lies clockwise behind p, up to and including x. */
  predicate Arc(p: nat, x: nat, h: nat) { if p < x then p < h <= x else h > p || h <= x }

  /** p is the last key met before x. */
  ghost predicate Precedes(keys: set<nat>, p: nat, x: nat) {
    p in keys && forall j | j in keys && j != p :: !Arc(p, x, j)
  }

  lemma OneOwner(keys: set<nat>, h: nat, k: nat, l: nat)
    requires Owns(keys, h, k) && Owns(keys, h, l)
    ensures k == l
  {
  }

  lemma {:induction false} LastBefore(keys: set<nat>, x: nat) returns (p: nat)
    requires keys != {} && x !in keys
    ensures Precedes(keys, p, x)
    decreases |keys|
  {
    var k :| k in keys;
    if keys == {k} {
      p := k;
    } else {
      var q := LastBefore(keys - {k}, x);
      p := if Arc(q, x, k) then k else q;
      forall j | j in keys && j != p
        ensures !Arc(p, x, j)
      {
        if j != k && j != q { assert j in keys - {k} && j != q; }
      }
    }
  }

  class Ring<N> {
    var nodes: map<nat, N>

    constructor ()
      ensures nodes == map[]
    {
      nodes := map[];
    }

    /** Does nothing when the hash is taken. */
    method Insert(hash: nat, node: N) returns (added: bool)
      modifies this
      ensures added <==> hash !in old(nodes)
      ensures nodes == if added then old(nodes)[hash := node] else old(nodes)
    {
      added := hash !in nodes;
      if added { nodes := nodes[hash := node]; }
    }

    method Erase(hash: nat)
      requires hash in nodes
      modifies this
      ensures nodes == old(nodes) - {hash}
    {
      nodes := nodes - {hash};
    }

    /** lower_bound, and begin when there is none. */
    method Find(h: nat) returns (k: Option<nat>)
      ensures k.None? <==> nodes == map[]
      ensures k.Some? ==> Owns(nodes.Keys, h, k.value)
    {
      if nodes == map[] { return None; }
      k := LowerBound(nodes.Keys, h);
      if k.None? { k := LowerBound(nodes.Keys, 0); }
    }

    static method LowerBound(keys: set<nat>, lo: nat) returns (k: Option<nat>)
      ensures k.None? <==> forall j | j in keys :: j < lo
      ensures k.Some? ==> k.value in keys && k.value >= lo && forall j | j in keys && j >= lo :: k.value <= j
    {
      k := None;
      var left := keys;
      while left != {}
        invariant left <= keys
        invariant k.None? ==> forall j | j in keys && j !in left :: j < lo
        invariant k.Some? ==>
          k.value in keys && k.value >= lo && forall j | j in keys && j !in left && j >= lo :: k.value <= j
        decreases left
      {
        var x :| x in left;
        left := left - {x};
        if x >= lo && (k.None? || x < k.value) { k := Some(x); }
      }
    }
  }

  /**
   A node at an unused hash takes over exactly the keys in the arc from its predecessor to
   it; every other key keeps its owner.
   */
  lemma InsertMovesOneArc(keys: set<nat>, x: nat, p: nat, h: nat, k: nat)
    requires x !in keys && Precedes(keys, p, x) && Owns(keys, h, k)
    ensures Owns(keys + {x}, h, if Arc(p, x, h) then x else k)
  {
    assert Before(h, x, k) <==> Arc(p, x, h);
  }

  /** On a ring with a node there is always such a predecessor, and with it one arc that moves. */
  lemma OneArcMoves(keys: set<nat>, x: nat) returns (p: nat)
    requires keys != {} && x !in keys
    ensures Precedes(keys, p, x)
    ensures forall h, k | Owns(keys, h, k) :: Owns(keys + {x}, h, if Arc(p, x, h) then x else k)
  {
    p := LastBefore(keys, x);
    forall h, k | Owns(keys, h, k)
      ensures Owns(keys + {x}, h, if Arc(p, x, h) then x else k)
    {
      InsertMovesOneArc(keys, x, p, h, k);
    }
  }

  /** Who is met first from x, is met first from any h from which x itself was met first. */
  lemma PassesOn(keys: set<nat>, x: nat, next: nat, h: nat)
    requires x !in keys && Owns(keys, x, next) && Owns(keys + {x}, h, x)
    ensures Owns(keys, h, next)
  {
    assert next in keys + {x} && Before(h, x, next);
    forall j | j in keys && j != next
      ensures Before(h, next, j)
    {
      assert j in keys + {x} && Before(h, x, j) && Before(x, next, j);
    }
  }

  /**
   When a node goes and another is left, the keys in the arc from its predecessor to it, which
   were exactly its own, pass to the next node clockwise; every other key keeps its owner.
   */
  lemma EraseMovesOneArc(keys: set<nat>, x: nat, p: nat, next: nat, h: nat, k: nat)
    requires x in keys && Precedes(keys - {x}, p, x) && Owns(keys - {x}, x, next) && Owns(keys, h, k)
    ensures k == x <==> Arc(p, x, h)
    ensures Owns(keys - {x}, h, if Arc(p, x, h) then next else k)
  {
    var left := keys - {x};
    assert left + {x} == keys;
    if k == x {
      PassesOn(left, x, next, h);
    }
    var l := if k == x then next else k;
    InsertMovesOneArc(left, x, p, h, l);
    OneOwner(keys, h, k, if Arc(p, x, h) then x else l);
  }
}
