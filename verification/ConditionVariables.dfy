/** The lists behind the condition variables (Co_Routine.cpp:863-892): one list of waiters for each,
    every waiter a node around the event item it is woken by. */
module ConditionVariables {
  import opened Sequences
  import opened IntrusiveList
  import opened ListFamily
  import opened Events

  type Cv = List<Item>      // ConditionVariableLink
  type Waiter = Node<Item>  // ConditionVariableItem

  function Datas(s: seq<Waiter>): (r: seq<Item>)
    reads s
    ensures |r| == |s|
  {
    seq(|s|, i requires 0 <= i < |s| reads s => s[i].data)
  }

  /** The condition variables of one thread, and the waiters allocated for them. */
  class Registry {
    ghost var cvs: set<Cv>
    ghost var waiters: set<Waiter>

    ghost function Space(): Family<Item>
      reads this
    {
      Family(cvs, waiters)
    }

    /** No two waiters share an item. */
    ghost predicate Valid()
      reads this, cvs, waiters
    {
      && Sound(Space())
      && forall n, m :: n in waiters && m in waiters && n.data == m.data ==> n == m
    }

    ghost function Queues(): map<Cv, seq<Item>>
      requires Valid()
      reads this, cvs, waiters
    {
      map cv | cv in cvs :: Datas(cv.nodes)
    }

    constructor ()
      ensures Valid() && cvs == {} && waiters == {}
    {
      cvs, waiters := {}, {};
    }

    /** Removing a node removes its item from the abstract queue. */
    lemma {:induction false} DatasWithout(s: seq<Waiter>, n: Waiter)
      requires Valid() && n in waiters && forall i :: 0 <= i < |s| ==> s[i] in waiters
      ensures Datas(Without(s, n)) == Without(Datas(s), n.data)
    {
      if s != [] {
        DatasWithout(s[1..], n);
        assert Datas(s) == [s[0].data] + Datas(s[1..]);
        assert Datas(Without(s, n)) == (if s[0] == n then [] else [s[0].data]) + Datas(Without(s[1..], n));
      }
    }

    lemma QueuesUpdated(was: map<Cv, seq<Item>>, cv: Cv, items: seq<Item>)
      requires Valid() && cvs == was.Keys && cv in cvs && Datas(cv.nodes) == items
      requires forall c :: c in cvs && c != cv ==> Datas(c.nodes) == was[c]
      ensures Queues() == was[cv := items]
    {
    }

    method ConditionVariableInit() returns (cv: Cv)
      requires Valid()
      modifies `cvs
      ensures Valid() && fresh(cv) && cvs == old(cvs) + {cv}
      ensures Queues() == old(Queues())[cv := []]
    {
      hide Sound;
      cv := new List<Item>();
      hide List.Valid;
      AddLink(cv);
    }

    /** A list without waiters joins the registry. */
    ghost method AddLink(cv: Cv)
      requires Valid() && cv !in cvs && cv.Valid() && cv.nodes == []
      modifies `cvs
      ensures Valid() && cvs == old(cvs) + {cv} && Queues() == old(Queues())[cv := []]
    {
      hide List.Valid;
      ghost var was := Queues();
      cvs := cvs + {cv};
      assert Queues() == was[cv := []];
    }

    lemma HeadFacts(cv: Cv)
      requires Valid() && cv in cvs
      ensures if cv.nodes == [] then cv.head == null else cv.head == cv.nodes[0] && cv.nodes[0] in waiters
    {
    }

    /** PopFromLink (lines 925-931). */
    method PopFromLink(cv: Cv) returns (head: Node?<Item>)
      requires Valid() && cv in cvs
      modifies cvs, waiters`Prev, waiters`Next, waiters`Link
      ensures Valid()
      ensures head == null <==> old(Queues())[cv] == []
      ensures head == null ==> Queues() == old(Queues())
      ensures head != null ==>
                && head in waiters && head.data == old(Queues())[cv][0]
                && Queues() == old(Queues())[cv := old(Queues())[cv][1..]]
    {
      head := cv.head;
      HeadFacts(cv);
      hide Sound, List.Valid, Distinct;
      if head != null {
        ghost var was := Queues();
        Pop(cv, Space());
        QueuesUpdated(was, cv, was[cv][1..]);
      }
    }

    /** A new waiter joins the queue of cv. */
    method Enqueue(cv: Cv, node: Waiter)
      requires Valid() && cv in cvs && node !in waiters && node.Link == null
      requires forall n :: n in waiters ==> n.data != node.data
      modifies `waiters, cvs, waiters`Prev, waiters`Next, node`Prev, node`Next, node`Link
      ensures Valid() && waiters == old(waiters) + {node}
      ensures Queues() == old(Queues())[cv := old(Queues())[cv] + [node.data]]
    {
      hide Sound, List.Valid, Distinct;
      ghost var was := Queues();
      Resized(Space(), waiters + {node});
      waiters := waiters + {node};
      Append(cv, node, Space());
      QueuesUpdated(was, cv, was[cv] + [node.data]);
    }

    /** A waiter that is done leaves the queue it may still be in, and is freed. */
    method Dequeue(node: Waiter)
      requires Valid() && node in waiters
      modifies `waiters, cvs, waiters`Prev, waiters`Next, node`Link
      ensures Valid() && waiters == old(waiters) - {node} && forall n :: n in waiters ==> n.data != node.data
      ensures Queues() == map cv | cv in old(cvs) :: Without(old(Queues())[cv], node.data)
    {
      hide Sound, List.Valid, Distinct;
      ghost var was := Queues();
      AllWithout(node);
      RemoveNode(node);
      forall cv | cv in cvs ensures Datas(cv.nodes) == Without(was[cv], node.data) {
        assert Datas(cv.nodes) == old(Datas(Without(cv.nodes, node)));
      }
    }

    method RemoveNode(node: Waiter)
      requires Valid() && node in waiters
      modifies `waiters, cvs, waiters`Prev, waiters`Next, node`Link
      ensures Valid() && waiters == old(waiters) - {node} && forall n :: n in waiters ==> n.data != node.data
      ensures forall cv :: cv in cvs ==> cv.nodes == Without(old(cv.nodes), node)
    {
      hide Sound, List.Valid, Distinct;
      Remove(node, Space());
      Resized(Space(), waiters - {node});
      waiters := waiters - {node};
    }

    lemma AllWithout(node: Waiter)
      requires Valid() && node in waiters
      ensures forall cv :: cv in cvs ==> Datas(Without(cv.nodes, node)) == Without(Queues()[cv], node.data)
    {
      forall cv | cv in cvs ensures Datas(Without(cv.nodes, node)) == Without(Queues()[cv], node.data) {
        DatasWithout(cv.nodes, node);
      }
    }
  }
}
