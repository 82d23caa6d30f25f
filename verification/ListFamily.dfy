/** The list operations seen from a family of lists that share one set of nodes: what happens to all
    the other lists is nothing, and that takes no more than the owner pointers. */
module ListFamily {
  import opened Sequences
  import opened IntrusiveList

  datatype Family<!D> = Family(lists: set<List<D>>, items: set<Node<D>>)

  /** Every list is well formed over the shared nodes; every node is on the list its Link names. */
  ghost predicate Sound<D>(f: Family<D>)
    reads f.lists, f.items
  {
    && (forall l :: l in f.lists ==> Nodes(l) <= f.items && l.Valid())
    && (forall n :: n in f.items ==> n.Link == null || (n.Link in f.lists && n in n.Link.nodes))
  }

  lemma Disjoint<D>(f: Family<D>, l: List<D>, m: List<D>)
    requires Sound(f) && l in f.lists && m in f.lists && l != m
    ensures Nodes(l) !! Nodes(m)
  {
    Apart(l, m);
  }

  lemma EmptyIsSound<D>(f: Family<D>)
    requires f.items == {} && forall l :: l in f.lists ==> l.Valid() && l.nodes == []
    ensures Sound(f)
  {
  }

  /** Nodes that are on no list may join a family, or leave it. */
  lemma Resized<D>(f: Family<D>, items: set<Node<D>>)
    requires Sound(f)
    requires forall n :: n in f.items && n !in items ==> n.Link == null
    requires forall n :: n in items && n !in f.items ==> n.Link == null
    ensures Sound(Family(f.lists, items))
  {
    forall l | l in f.lists ensures Nodes(l) <= items {
      forall n | n in l.nodes ensures n in items {
        var i :| 0 <= i < |l.nodes| && l.nodes[i] == n;
        assert l.nodes[i].Link == l;
      }
    }
  }

  method Remove<D>(ap: Node<D>, ghost f: Family<D>)
    requires Sound(f) && ap in f.items
    modifies f.lists, f.items`Prev, f.items`Next, ap`Link
    ensures Sound(f) && ap.Link == null
    ensures forall l :: l in f.lists ==> l.nodes == Without(old(l.nodes), ap)
  {
    hide Without;
    forall l | l in f.lists
      ensures l != ap.Link ==> Without(l.nodes, ap) == l.nodes
      ensures ap.Link != null && l != ap.Link ==> Nodes(l) !! Nodes(ap.Link)
    {
      WithoutMembers(l.nodes, ap);
      if ap.Link != null && l != ap.Link {
        Disjoint(f, l, ap.Link);
      }
    }
    if ap.Link != null {
      WithoutMembers(ap.Link.nodes, ap);
    }
    RemoveFromWheel(ap);
  }

  method Append<D>(l: List<D>, ap: Node<D>, ghost f: Family<D>)
    requires Sound(f) && l in f.lists && ap in f.items
    modifies f.lists, f.items`Prev, f.items`Next, ap`Link
    ensures Sound(f) && ap.Link != null
    ensures old(ap.Link) != null ==> ap.Link == old(ap.Link) && forall m :: m in f.lists ==> m.nodes == old(m.nodes)
    ensures old(ap.Link) == null ==> l.nodes == old(l.nodes) + [ap] && forall m :: m in f.lists && m != l ==> m.nodes == old(m.nodes)
  {
    forall m | m in f.lists && m != l ensures Nodes(m) !! Nodes(l) {
      Disjoint(f, l, m);
    }
    AddTail(l, ap);
  }

  method Splice<D>(l: List<D>, other: List<D>, ghost f: Family<D>)
    requires Sound(f) && l in f.lists && other in f.lists && l != other
    modifies f.lists, f.items`Prev, f.items`Next, f.items`Link
    ensures Sound(f)
    ensures l.nodes == old(l.nodes) + old(other.nodes) && other.nodes == []
    ensures forall m :: m in f.lists && m != l && m != other ==> m.nodes == old(m.nodes)
  {
    forall m | m in f.lists && m != l && m != other ensures Nodes(m) !! Nodes(l) && Nodes(m) !! Nodes(other) {
      Disjoint(f, l, m);
      Disjoint(f, other, m);
    }
    ghost var a, b := l.nodes, other.nodes;
    Join(l, other);
    forall n | n in f.items && n.Link != null ensures n.Link in f.lists && n in n.Link.nodes {
      if n in b {
        assert n in a + b;
        var i :| 0 <= i < |l.nodes| && l.nodes[i] == n;
        assert l.nodes[i].Link == l;
      } else {
        assert old(n.Link) == n.Link;
      }
    }
  }

  method Pop<D>(l: List<D>, ghost f: Family<D>)
    requires Sound(f) && l in f.lists && l.nodes != []
    modifies f.lists, f.items`Prev, f.items`Next, f.items`Link
    ensures Sound(f) && old(l.nodes[0]).Link == null
    ensures l.nodes == old(l.nodes)[1..]
    ensures forall m :: m in f.lists && m != l ==> m.nodes == old(m.nodes)
  {
    forall m | m in f.lists && m != l ensures Nodes(m) !! Nodes(l) {
      Disjoint(f, l, m);
    }
    ghost var was := l.nodes;
    PopHead(l);
    assert was == [was[0]] + l.nodes;
    forall n | n in f.items && n.Link != null ensures n.Link in f.lists && n in n.Link.nodes {
      assert old(n.Link) == n.Link;
      assert n.Link == l ==> n in was && n != was[0];
    }
  }
}
