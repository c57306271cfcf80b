/**
 Gateways form a tree: each one connects to at most one configured parent, and one
 without a parent is a root.  While some links are still down the tree is a forest.
 */
module Topology {
  datatype GatewayId = GatewayId(name: string)

  datatype Forest = Forest(parent: map<GatewayId, GatewayId>, depth: map<GatewayId, nat>) {

    ghost function Depth(x: GatewayId): nat
    {
      if x in depth then depth[x] else 0
    }

    /** No gateway is its own ancestor: depth grows from parent to child. */
    ghost predicate Acyclic()
    {
      forall c :: c in parent ==> Depth(parent[c]) < Depth(c)
    }

    ghost predicate Edge(a: GatewayId, b: GatewayId)
    {
      (a in parent && parent[a] == b) || (b in parent && parent[b] == a)
    }

    /** `b` lies on the way from `x` to its root. */
    ghost predicate Below(x: GatewayId, b: GatewayId)
      requires Acyclic()
      decreases Depth(x)
    {
      x == b || (x in parent && Below(parent[x], b))
    }

    ghost function Root(x: GatewayId): GatewayId
      requires Acyclic()
      decreases Depth(x)
    {
      if x in parent then Root(parent[x]) else x
    }

    /** The child of `a` through which `x` hangs below `a`. */
    ghost function ChildToward(a: GatewayId, x: GatewayId): (c: GatewayId)
      requires Acyclic() && Below(x, a) && x != a
      ensures c in parent && parent[c] == a && Below(x, c)
      decreases Depth(x)
    {
      if parent[x] == a then x else ChildToward(a, parent[x])
    }

    /** Both gateways are in the same tree. */
    ghost predicate Joined(a: GatewayId, x: GatewayId)
      requires Acyclic()
    {
      Root(a) == Root(x)
    }

    /** The neighbour of `a` on the way to `x`. */
    ghost function Hop(a: GatewayId, x: GatewayId): (b: GatewayId)
      requires Acyclic() && a != x && Joined(a, x)
      ensures Edge(a, b) && Joined(b, x)
    {
      if Below(x, a) then
        SameRoot(x, a);
        ChildToward(a, x)
      else
        RootAbove(x, a);
        parent[a]
    }

    /** `x` lies on `b`'s side of the link between `a` and its neighbour `b`. */
    ghost predicate Behind(a: GatewayId, b: GatewayId, x: GatewayId)
      requires Acyclic()
    {
      Joined(a, x) && a != x && Hop(a, x) == b
    }

    /** The gateways of `s` on `b`'s side of the link between `a` and `b`. */
    ghost function Side(s: set<GatewayId>, a: GatewayId, b: GatewayId): set<GatewayId>
      requires Acyclic()
    {
      set x | x in s && Behind(a, b, x)
    }

    lemma {:induction false} SameRoot(x: GatewayId, b: GatewayId)
      requires Acyclic() && Below(x, b)
      ensures Root(x) == Root(b)
      ensures Depth(b) <= Depth(x)
      decreases Depth(x)
    {
      if x != b { SameRoot(parent[x], b); }
    }

    lemma {:induction false} RootAbove(x: GatewayId, a: GatewayId)
      requires Acyclic() && Root(x) == Root(a)
      ensures a in parent || Below(x, a)
      decreases Depth(x)
    {
      if x in parent { RootAbove(parent[x], a); }
    }

    lemma {:induction false} BelowTrans(x: GatewayId, a: GatewayId, b: GatewayId)
      requires Acyclic() && Below(x, a) && Below(a, b)
      ensures Below(x, b)
      decreases Depth(x)
    {
      if x != a { BelowTrans(parent[x], a, b); }
    }

    /** A gateway hangs below at most one child of `p`. */
    lemma {:induction false} OneChild(x: GatewayId, a: GatewayId)
      requires Acyclic() && Below(x, a) && a in parent
      ensures Below(x, parent[a]) && x != parent[a] && ChildToward(parent[a], x) == a
      decreases Depth(x)
    {
      if x != a {
        OneChild(parent[x], a);
        SameRoot(parent[x], a);
      }
    }

    /**
     A link splits its tree in two: every gateway is on exactly one side of it.
     All that the flooding and routing proofs need of a tree is here.
     */
    lemma LinkSplits(a: GatewayId, b: GatewayId, x: GatewayId)
      requires Acyclic() && Edge(a, b) && Joined(a, x)
      ensures Joined(b, x)
      ensures Behind(a, b, x) <==> !Behind(b, a, x)
    {
      if a in parent && parent[a] == b {
        ChildSplits(a, x);
      } else {
        ChildSplits(b, x);
      }
    }

    lemma ChildSplits(a: GatewayId, x: GatewayId)
      requires Acyclic() && a in parent && (Joined(a, x) || Joined(parent[a], x))
      ensures Joined(a, x) && Joined(parent[a], x)
      ensures Behind(parent[a], a, x) <==> Below(x, a)
      ensures Behind(a, parent[a], x) <==> !Below(x, a)
    {
      var b := parent[a];
      if Below(x, a) {
        OneChild(x, a);
      } else if Below(x, b) && x != b {
        assert ChildToward(b, x) != a;
      } else if x != b {
        RootAbove(x, b);
      }
    }

    /** The only way from `a`'s side to `b`'s is the link itself. */
    lemma OnlyCrossing(a: GatewayId, b: GatewayId, x: GatewayId, y: GatewayId)
      requires Acyclic() && Edge(a, b) && Edge(x, y) && Behind(b, a, x) && !Behind(b, a, y)
      ensures x == a && y == b
    {
      LinkSplits(x, y, b);
      var c := if a in parent && parent[a] == b then a else b;
      ChildSplits(c, x);
      ChildSplits(c, y);
    }

    /** Beyond `b`, its side splits among the neighbours other than the one it was reached from. */
    lemma SideSplits(a: GatewayId, b: GatewayId, x: GatewayId)
      requires Acyclic() && Edge(a, b)
      ensures Behind(a, b, b)
      ensures !Behind(a, b, a)
      ensures x != b ==>
        (Behind(a, b, x) <==> Joined(b, x) && Hop(b, x) != a)
    {
      LinkSplits(a, b, b);
      if Joined(a, x) || Joined(b, x) {
        LinkSplits(b, a, b);
        LinkSplits(a, b, x);
      }
    }

    /** The side shrinks as a message travels on. */
    lemma SideShrinks(s: set<GatewayId>, a: GatewayId, b: GatewayId, c: GatewayId)
      requires Acyclic() && Edge(a, b) && Edge(b, c) && c != a && b in s
      ensures Side(s, b, c) < Side(s, a, b)
    {
      forall x | x in Side(s, b, c) ensures x in Side(s, a, b) { SideSplits(a, b, x); }
      SideSplits(a, b, b);
      assert b in Side(s, a, b) && b !in Side(s, b, c);
    }
  }
}
