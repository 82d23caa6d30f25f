/** The doubly linked list templates of Co_Routine.cpp:144-238: a node carries its own
    Prev, Next and a pointer to the list that owns it, so it can be unlinked in O(1). */
module IntrusiveList {
  import opened Sequences

  class Node<D> {
    var Prev: Node?<D>
    var Next: Node?<D>
    var Link: List?<D>
    var data: D

    constructor (d: D)
      ensures Prev == null && Next == null && Link == null && data == d
    {
      Prev, Next, Link, data := null, null, null, d;
    }
  }

  class List<D> {
    var head: Node?<D>
    var tail: Node?<D>
    ghost var nodes: seq<Node<D>>

    constructor ()
      ensures Valid() && nodes == []
    {
      head, tail, nodes := null, null, [];
    }

    /** Head, tail, Prev, Next and Link all describe the same sequence `nodes`. */
    ghost predicate Valid()
      reads this, nodes
    {
      && head == (if nodes == [] then null else nodes[0])
      && tail == (if nodes == [] then null else nodes[|nodes| - 1])
      && (forall i {:trigger nodes[i].Link} :: 0 <= i < |nodes| ==> nodes[i].Link == this)
      && (forall i {:trigger nodes[i].Prev} :: 0 <= i < |nodes| ==>
            nodes[i].Prev == (if i == 0 then null else nodes[i - 1]))
      && (forall i {:trigger nodes[i].Next} :: 0 <= i < |nodes| ==>
            nodes[i].Next == (if i == |nodes| - 1 then null else nodes[i + 1]))
      && Distinct(nodes)
    }
  }

  ghost function Nodes<D>(l: List<D>): set<Node<D>>
    reads l
  {
    set n | n in l.nodes
  }

  /** The list a node is on, as a frame; empty for an unlinked node. */
  ghost function Owner<D>(ap: Node<D>): set<List<D>>
    reads ap
  {
    if ap.Link == null then {} else {ap.Link}
  }

  ghost function Siblings<D>(ap: Node<D>): set<Node<D>>
    reads ap, Owner(ap)
  {
    if ap.Link == null then {} else Nodes(ap.Link)
  }

  /** Bridging the neighbours of position k leaves a valid list without that position. */
  lemma CutOut<D>(l: List<D>, was: seq<Node<D>>, k: nat)
    requires k < |was| && Distinct(was) && l.nodes == was[..k] + was[k+1..]
    requires l.head == (if k > 0 then was[0] else if |was| > 1 then was[1] else null)
    requires l.tail == (if k < |was| - 1 then was[|was| - 1] else if |was| > 1 then was[|was| - 2] else null)
    requires forall i {:trigger was[i].Link} :: 0 <= i < |was| && i != k ==> was[i].Link == l
    requires forall i {:trigger was[i].Prev} :: 0 <= i < |was| && i != k ==>
      was[i].Prev == (var j := if i == k + 1 then k - 1 else i - 1; if j < 0 then null else was[j])
    requires forall i {:trigger was[i].Next} :: 0 <= i < |was| && i != k ==>
      was[i].Next == (var j := if i == k - 1 then k + 1 else i + 1; if j == |was| then null else was[j])
    ensures l.Valid()
  {
    var s := l.nodes;
    CutDistinct(was, k);
    forall i | 0 <= i < |s|
      ensures s[i].Link == l
      ensures s[i].Prev == (if i == 0 then null else s[i - 1])
      ensures s[i].Next == (if i == |s| - 1 then null else s[i + 1])
    {
      var j := if i < k then i else i + 1;
      assert s[i] == was[j];
    }
  }

  method RemoveFromWheel<D>(ap: Node<D>)
    requires ap.Link != null ==> ap.Link.Valid() && ap in ap.Link.nodes
    modifies Owner(ap), ap`Prev, ap`Next, ap`Link, Siblings(ap)`Prev, Siblings(ap)`Next
    ensures ap.Link == null
    ensures old(ap.Link) == null ==> ap.Prev == old(ap.Prev) && ap.Next == old(ap.Next)
    ensures var l := old(ap.Link); l != null ==>
              && ap.Prev == null && ap.Next == null
              && l.Valid() && l.nodes == Without(old(l.nodes), ap)
  {
    var lst := ap.Link;
    if lst == null {
      return;
    }
    ghost var was := lst.nodes;
    ghost var k :| 0 <= k < |was| && was[k] == ap;
    assert ap.Prev == (if k == 0 then null else was[k - 1]) && ap.Next == (if k == |was| - 1 then null else was[k + 1]);
    assert (ap == lst.head <==> k == 0) && (ap == lst.tail <==> k == |was| - 1);
    if ap == lst.head {
      lst.head := ap.Next;
      if lst.head != null {
        lst.head.Prev := null;
      }
    } else {
      if ap.Prev != null {
        ap.Prev.Next := ap.Next;
      }
    }
    if ap == lst.tail {
      lst.tail := ap.Prev;
      if lst.tail != null {
        lst.tail.Next := null;
      }
    } else {
      ap.Next.Prev := ap.Prev;
    }
    ap.Prev, ap.Next := null, null;
    ap.Link := null;
    lst.nodes := was[..k] + was[k+1..];
    assert lst.nodes == Without(was, ap) by {
      WithoutIsCut(was, k);
    }
    CutOut(lst, was, k);
  }

  method AddTail<D>(apLink: List<D>, ap: Node<D>)
    requires apLink.Valid()
    modifies apLink, ap`Prev, ap`Next, ap`Link, Nodes(apLink)`Next
    ensures old(ap.Link) != null ==>
              ap.Link == old(ap.Link) && ap.Prev == old(ap.Prev) && ap.Next == old(ap.Next) && apLink.nodes == old(apLink.nodes)
    ensures apLink.Valid()
    ensures old(ap.Link) == null ==> ap.Link == apLink && apLink.nodes == old(apLink.nodes) + [ap]
  {
    if ap.Link != null {
      return;
    }
    if apLink.tail != null {
      apLink.tail.Next := ap;
      ap.Next := null;
      ap.Prev := apLink.tail;
      apLink.tail := ap;
    } else {
      apLink.head, apLink.tail := ap, ap;
      ap.Next, ap.Prev := null, null;
    }
    ap.Link := apLink;
    apLink.nodes := apLink.nodes + [ap];
  }

  /** Owner pointers alone keep any two lists disjoint. */
  lemma Apart<D>(l: List<D>, m: List<D>)
    requires l.Valid() && m.Valid() && l != m
    ensures forall i, j :: 0 <= i < |l.nodes| && 0 <= j < |m.nodes| ==> l.nodes[i] != m.nodes[j]
  {
    forall i, j | 0 <= i < |l.nodes| && 0 <= j < |m.nodes| ensures l.nodes[i] != m.nodes[j] {
      assert l.nodes[i].Link == l && m.nodes[j].Link == m;
    }
  }

  /** Two chains whose ends point at each other are one list. */
  lemma Spliced<D>(l: List<D>, a: seq<Node<D>>, b: seq<Node<D>>)
    requires b != [] && Distinct(a) && Distinct(b) && l.nodes == a + b
    requires forall i, j :: 0 <= i < |a| && 0 <= j < |b| ==> a[i] != b[j]
    requires l.head == (a + b)[0] && l.tail == b[|b| - 1]
    requires forall i {:trigger a[i].Link} :: 0 <= i < |a| ==> a[i].Link == l
    requires forall i {:trigger b[i].Link} :: 0 <= i < |b| ==> b[i].Link == l
    requires forall i {:trigger a[i].Prev} :: 0 <= i < |a| ==> a[i].Prev == (if i == 0 then null else a[i - 1])
    requires forall i {:trigger a[i].Next} :: 0 <= i < |a| ==> a[i].Next == (if i == |a| - 1 then b[0] else a[i + 1])
    requires forall i {:trigger b[i].Prev} :: 0 <= i < |b| ==>
      b[i].Prev == (if i > 0 then b[i - 1] else if a == [] then null else a[|a| - 1])
    requires forall i {:trigger b[i].Next} :: 0 <= i < |b| ==> b[i].Next == (if i == |b| - 1 then null else b[i + 1])
    ensures l.Valid()
  {
    var s := l.nodes;
    forall i | 0 <= i < |s|
      ensures s[i].Link == l
      ensures s[i].Prev == (if i == 0 then null else s[i - 1])
      ensures s[i].Next == (if i == |s| - 1 then null else s[i + 1])
    {
      if i < |a| {
        assert s[i] == a[i];
      } else {
        assert s[i] == b[i - |a|];
      }
    }
  }

  method Join<D>(apLink: List<D>, apOther: List<D>)
    requires apLink.Valid() && apOther.Valid() && apLink != apOther
    modifies apLink, apOther, Nodes(apOther)`Link, Nodes(apOther)`Prev,
             Nodes(apLink)`Next
    ensures apLink.Valid() && apOther.Valid()
    ensures apLink.nodes == old(apLink.nodes) + old(apOther.nodes)
    ensures apOther.nodes == []
  {
    if apOther.head == null {
      return;
    }
    ghost var a, b := apLink.nodes, apOther.nodes;
    Apart(apLink, apOther);
    var lp := apOther.head;
    ghost var k := 0;
    while lp != null
      invariant 0 <= k <= |b|
      invariant lp == if k < |b| then b[k] else null
      invariant forall i {:trigger b[i].Link} :: 0 <= i < k ==> b[i].Link == apLink
      modifies old(Nodes(apOther))`Link
      decreases |b| - k
    {
      lp.Link := apLink;
      lp := lp.Next;
      k := k + 1;
    }
    lp := apOther.head;
    if apLink.tail != null {
      apLink.tail.Next := lp;
      lp.Prev := apLink.tail;
      apLink.tail := apOther.tail;
    } else {
      apLink.head := apOther.head;
      apLink.tail := apOther.tail;
    }
    apOther.head, apOther.tail := null, null;
    apLink.nodes, apOther.nodes := a + b, [];
    Spliced(apLink, a, b);
  }

  method PopHead<D>(apLink: List<D>)
    requires apLink.Valid()
    modifies apLink, Nodes(apLink)`Prev, Nodes(apLink)`Next, Nodes(apLink)`Link
    ensures apLink.Valid()
    ensures old(apLink.nodes) == [] ==> apLink.nodes == []
    ensures old(apLink.nodes) != [] ==>
              var lp := old(apLink.nodes[0]);
              && apLink.nodes == old(apLink.nodes)[1..]
              && lp.Prev == null && lp.Next == null && lp.Link == null
  {
    if apLink.head == null {
      return;
    }
    var lp := apLink.head;
    if apLink.head == apLink.tail {
      apLink.head, apLink.tail := null, null;
    } else {
      apLink.head := apLink.head.Next;
    }
    lp.Prev, lp.Next := null, null;
    lp.Link := null;
    if apLink.head != null {
      apLink.head.Prev := null;
    }
    apLink.nodes := apLink.nodes[1..];
  }
}
