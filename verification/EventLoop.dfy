/** The mutable side of the scheduler: Co_Epoll of Co_Routine.cpp:334-341, the polls of 684-786, the
    loop of 795-860 and the condition variables of 863-957, on intrusive lists. Every method is
    proved to change the abstract queues exactly as its counterpart in EventQueues. A library call
    that gives up the processor in the middle is cut there: Enter runs up to Co_yeild, Leave after. */
module EventLoop {
  import opened Sequences
  import opened IntrusiveList
  import opened ListFamily
  import opened Events
  import opened ConditionVariables
  import WheelSpec
  import TimeWheelClass
  import EQ = EventQueues

  class Co_Epoll {
    const TW: TimeWheelClass.TimeWheel
    const ActiveLink: List<Event>
    const TimeoutLink: List<Event>
    const CV: Registry
    ghost const lists: set<List<Event>> // the slots of the wheel and the two links
    ghost var live: set<Item>           // event items allocated and not freed

    ghost function Space(): Family<Event>
      reads this
    {
      Family(lists, live)
    }

    ghost predicate Links()
      reads this, TW, lists, live
    {
      && ActiveLink != TimeoutLink && ActiveLink !in TW.Wheel && TimeoutLink !in TW.Wheel
      && lists == (set l | l in TW.Wheel) + {ActiveLink, TimeoutLink}
      && TW.Valid(Space())
    }

    ghost predicate WaiterItems()
      reads this, CV, CV.waiters, live
    {
      forall n :: n in CV.waiters ==> n.data in live && n.data.data.Cv?
    }

    ghost predicate Valid()
      reads this, TW, lists, live, CV, CV.cvs, CV.waiters
    {
      Links() && CV.Valid() && WaiterItems()
    }

    ghost function EventMap(): map<Item, Event>
      reads this, live
    {
      map x | x in live :: x.data
    }

    /** The abstract queues. */
    ghost function Q(): EQ.Queues
      requires CV.Valid()
      reads this, TW, ActiveLink, TimeoutLink, live, CV, CV.cvs, CV.waiters
    {
      EQ.Queues(TW.View(), TimeoutLink.nodes, ActiveLink.nodes, CV.Queues(), EventMap())
    }

    constructor ()
      ensures Valid()
      ensures Q() == EQ.Queues(WheelSpec.Wheel(0, []), [], [], map[], map[])
    {
      hide WheelSpec.Represents, WheelSpec.InWindow, Sound, Distinct, List.Valid, Registry.Valid;
      var wheel := new TimeWheelClass.TimeWheel();
      var active := new List<Event>();
      var timeout := new List<Event>();
      var registry := new Registry();
      TW, ActiveLink, TimeoutLink, CV := wheel, active, timeout, registry;
      lists := (set l | l in wheel.Wheel) + {active, timeout};
      live := {};
      new;
      assert forall l :: l in lists ==> l.Valid() && l.nodes == [];
      EmptyIsSound(Space());
    }

    lemma FdFacts(x: Item)
      requires CV.Valid() && EQ.IsLiveFd(Q(), x)
      ensures x in live && x.data.PollFd? && x.data == Q().ev[x]
      ensures x.data.Stpoll in live && x.data.Stpoll.data.Poll? && x.data.Stpoll.data == Q().ev[x.data.Stpoll]
    {
    }

    // ---------- one item ----------

    /** RemoveFromWheel on an event item: it leaves the list it is on, if any. */
    method Unlink(ap: Item)
      requires Valid() && ap in live
      modifies TW, lists, live`Prev, live`Next, ap`Link
      ensures Valid() && ap.Link == null && Q() == EQ.Unlink(old(Q()), ap)
    {
      hide Sound, WheelSpec.Represents, WheelSpec.InWindow, Distinct, Registry.Queues, Registry.Valid, Without;
      ghost var was := TW.Slots();
      Remove(ap, Space());
      TW.Forget(ap, was, Space());
    }
  
    /** An item is on a list exactly if its Link is set. */
    lemma LinkedIsLink(x: Item)
      requires Valid() && x in live
      ensures EQ.Linked(Q(), x) <==> x.Link != null
    {
      hide Distinct, WheelSpec.Represents;
      if x in WheelSpec.Items(TW.held) {
        var s := WheelSpec.HeldToSlot(TW.Slots(), TW.Index, TW.View(), x);
        assert TW.Wheel[s] in lists && x in TW.Wheel[s].nodes;
      }
      if x.Link in TW.Wheel {
        var s :| 0 <= s < |TW.Wheel| && TW.Wheel[s] == x.Link;
        WheelSpec.SlotToHeld(TW.Slots(), TW.Index, TW.View(), x, s);
      }
    }

    /** AddTail on the active list. */
    method AddActive(ap: Item)
      requires Valid() && ap in live
      modifies lists, live`Prev, live`Next, ap`Link
      ensures Valid() && Q() == EQ.AddActive(old(Q()), ap)
    {
      hide Sound, WheelSpec.Represents, WheelSpec.InWindow, Distinct, Registry.Queues, EQ.Linked;
      LinkedIsLink(ap);
      ghost var was, f := TW.Slots(), Space();
      Append(ActiveLink, ap, f);
      assert TW.Slots() == was;
    }

    /** Writing the fields of an event item moves nothing. */
    method SetEvent(x: Item, e: Event)
      requires Valid() && x in live && (x.data.Cv? ==> e.Cv?)
      modifies x`data
      ensures Valid() && x.data == e && Q() == old(Q()).(ev := old(Q()).ev[x := e])
    {
      hide WheelSpec.Represents, WheelSpec.InWindow, Distinct, Registry.Queues;
      assert TW.Valid(Space()) && CV.Valid();
      hide Links, Registry.Valid;
      x.data := e;
      assert EventMap() == old(EventMap())[x := e];
    }

    // ---------- events ----------

    /** CoPrepare_ (lines 684-697). */
    method CoPrepare(CoItem: Item)
      requires Valid() && EQ.IsLiveFd(Q(), CoItem)
      modifies TW, lists, live
      ensures Valid() && Q() == EQ.CoPrepare(old(Q()), CoItem)
    {
      hide Links, Registry.Valid, WaiterItems, EQ.Unlink, EQ.AddActive, EQ.Linked, Q;
      FdFacts(CoItem);
      ghost var q := Q();
      var poll_ := CoItem.data.Stpoll;
      SetEvent(poll_, poll_.data.(RaisedNumber := poll_.data.RaisedNumber + 1));
      if !poll_.data.IsHandle {
        SetEvent(poll_, poll_.data.(IsHandle := true));
        assert Q() == q.(ev := q.ev[poll_ := poll_.data]);
        Unlink(poll_);
        AddActive(CoItem);
      }
    }

    /** The loop over one epoll result (lines 815-823). */
    method PrepareAll(events: seq<Item>)
      requires Valid() && forall i :: 0 <= i < |events| ==> EQ.IsLiveFd(Q(), events[i])
      modifies TW, lists, live
      ensures Valid() && Q() == EQ.PrepareAll(old(Q()), events)
    {
      hide Links, Registry.Valid, Registry.Queues, EQ.CoPrepare;
      assert events[..|events|] == events;
      for i := 0 to |events|
        invariant Valid() && Q() == EQ.PrepareAll(old(Q()), events[..i])
        invariant forall j :: 0 <= j < |events| ==> EQ.IsLiveFd(Q(), events[j])
      {
        assert events[..i + 1][..i] == events[..i];
        ghost var q := Q();
        CoPrepare(events[i]);
        forall j | 0 <= j < |events| ensures EQ.IsLiveFd(Q(), events[j]) {
          StaysLiveFd(q, events[i], events[j]);
        }
      }
    }

    lemma StaysLiveFd(q: EQ.Queues, x: Item, y: Item)
      requires EQ.IsLiveFd(q, x) && EQ.IsLiveFd(q, y)
      ensures EQ.IsLiveFd(EQ.CoPrepare(q, x), y)
    {
    }

    // ---------- timers ----------

    lemma TimeoutChain(k: nat)
      requires Valid() && k < |TimeoutLink.nodes|
      ensures TimeoutLink.nodes[k] in live
      ensures TimeoutLink.nodes[k].Next == if k + 1 < |TimeoutLink.nodes| then TimeoutLink.nodes[k + 1] else null
      ensures TimeoutLink.head == TimeoutLink.nodes[0]
    {
    }

    /** SetUpTimepoutLable (lines 795-801): everything on the timeout list is labelled. */
    method SetUpTimepoutLable()
      requires Valid()
      modifies live`data
      ensures Valid()
      ensures Q() == old(Q()).(ev := EQ.Labelled(old(Q()).ev, TimeoutLink.nodes))
    {
      hide Links, Registry.Valid, Registry.Queues, WaiterItems, EQ.Labelled;
      ghost var nodes, q := TimeoutLink.nodes, Q();
      var item := TimeoutLink.head;
      ghost var k := 0;
      EmptyIsNull();
      if nodes != [] {
        TimeoutChain(0);
      }
      LabelledNone(q.ev);
      while item != null
        invariant 0 <= k <= |nodes| && TimeoutLink.nodes == nodes
        invariant item == if k < |nodes| then nodes[k] else null
        invariant Valid() && Q() == q.(ev := EQ.Labelled(q.ev, nodes[..k]))
        decreases |nodes| - k
      {
        TimeoutChain(k);
        assert nodes[..k + 1] == nodes[..k] + [item];
        LabelledNext(q.ev, nodes[..k], item);
        SetEvent(item, item.data.(IsTimeout := true));
        item := item.Next;
        k := k + 1;
      }
      assert nodes[..k] == nodes;
    }

    static lemma LabelledNone(ev: map<Item, Event>)
      ensures EQ.Labelled(ev, []) == ev
    {
    }

    static lemma LabelledNext(ev: map<Item, Event>, late: seq<Item>, x: Item)
      requires x in ev
      ensures EQ.Labelled(ev, late + [x]) == EQ.Labelled(ev, late)[x := EQ.Labelled(ev, late)[x].(IsTimeout := true)]
    {
    }

    lemma EmptyIsNull()
      requires Valid()
      ensures TimeoutLink.nodes == [] <==> TimeoutLink.head == null
      ensures ActiveLink.nodes == [] <==> ActiveLink.head == null
      ensures ActiveLink.nodes != [] ==> ActiveLink.head == ActiveLink.nodes[0] && ActiveLink.nodes[0] in live
    {
    }

    /** TakeOutTimeout into the timeout list. */
    method TakeOut(Now: int)
      requires Valid() && Now > 0
      modifies TW, lists, live`Prev, live`Next, live`Link
      ensures Valid()
      ensures var q := old(Q());
              Q() == q.(wheel := WheelSpec.TakeOutTimeout(q.wheel, Now),
                        timeout := q.timeout + if Now < WheelSpec.Begin(q.wheel, Now).start then [] else WheelSpec.TakenOut(q.wheel, Now))
    {
      hide Sound, WheelSpec.Represents, WheelSpec.InWindow, Distinct, Registry.Queues;
      TW.TakeOutTimeout(Now, TimeoutLink, Space());
    }

    /** The Join of the timeout list into the active list (line 830). */
    method JoinTimeout()
      requires Valid()
      modifies lists, live`Prev, live`Next, live`Link
      ensures Valid()
      ensures Q() == old(Q()).(active := old(Q()).active + old(Q()).timeout, timeout := [])
    {
      hide Sound, WheelSpec.Represents, WheelSpec.InWindow, Distinct, Registry.Queues;
      ghost var was := TW.Slots();
      Splice(ActiveLink, TimeoutLink, Space());
      assert TW.Slots() == was;
    }

    /** Lines 825-830 of the loop. */
    method CollectTimeouts(Now: int)
      requires Valid() && Now > 0
      modifies TW, lists, live
      ensures Valid() && Q() == EQ.CollectTimeouts(old(Q()), Now)
    {
      hide Links, Registry.Valid, Registry.Queues, WheelSpec.TakenOut, WheelSpec.TakeOutTimeout, EQ.Labelled;
      TakeOut(Now);
      SetUpTimepoutLable();
      JoinTimeout();
    }

    /** A loop turn up to its drain (lines 815-830): the events of epoll, then the timers that are due. */
    method LoopTurn(events: seq<Item>, Now: int)
      requires Valid() && Now > 0 && forall i :: 0 <= i < |events| ==> EQ.IsLiveFd(Q(), events[i])
      modifies TW, lists, live
      ensures Valid() && Q() == EQ.CollectTimeouts(EQ.PrepareAll(old(Q()), events), Now)
    {
      hide Links, Registry.Valid, Registry.Queues, EQ.PrepareAll, EQ.CollectTimeouts;
      PrepareAll(events);
      CollectTimeouts(Now);
    }

    /** The head of the drain loop (lines 832-841): the next item to serve, off the active list. */
    method NextActive() returns (item: Node?<Event>)
      requires Valid()
      modifies lists, live`Prev, live`Next, live`Link
      ensures Valid()
      ensures item == null <==> old(Q()).active == []
      ensures item == null ==> Q() == old(Q())
      ensures item != null ==> item == old(Q()).active[0] && Q() == EQ.PopActive(old(Q()))
    {
      hide Sound, WheelSpec.Represents, WheelSpec.InWindow, Distinct, Registry.Queues;
      EmptyIsNull();
      item := ActiveLink.head;
      if item != null {
        ghost var was := TW.Slots();
        Pop(ActiveLink, Space());
        assert TW.Slots() == was;
      }
    }
  
    // ---------- allocation ----------

    /** New items join the live ones; they are on no list. */
    ghost method Adopt(xs: set<Item>)
      requires Valid() && xs !! live && forall x :: x in xs ==> x.Link == null
      modifies `live
      ensures Valid() && live == old(live) + xs
      ensures forall n :: n in CV.waiters ==> n.data !in xs
      ensures Q() == old(Q()).(ev := old(Q()).ev + map x | x in xs :: x.data)
    {
      hide Sound, WheelSpec.Represents, WheelSpec.InWindow, Distinct, Registry.Queues, Registry.Valid;
      ghost var q := Q();
      Resized(Space(), live + xs);
      live := live + xs;
      assert EventMap() == q.ev + map x | x in xs :: x.data;
    }

    /** Freed items must be on no list. */
    ghost method Release(xs: set<Item>)
      requires Valid() && xs <= live && (forall x :: x in xs ==> x.Link == null)
      requires forall n :: n in CV.waiters ==> n.data !in xs
      modifies `live
      ensures Valid() && live == old(live) - xs
      ensures Q() == old(Q()).(ev := old(Q()).ev - xs)
    {
      hide Sound, WheelSpec.Represents, WheelSpec.InWindow, Distinct, Registry.Queues, Registry.Valid;
      ghost var q := Q();
      Resized(Space(), live - xs);
      live := live - xs;
      assert EventMap() == q.ev - xs;
    }

    /** AddTimeOut on an item that is on no list. */
    method AddTimer(x: Item, Now: int) returns (ok: bool)
      requires Valid() && x in live && x.Link == null && Now > 0
      modifies TW, lists, live`Prev, live`Next, x`Link
      ensures Valid()
      ensures ok <==> WheelSpec.Accepts(old(Q()).wheel, x.data.ExpireTime, Now)
      ensures !ok ==> x.Link == null
      ensures Q() == old(Q()).(wheel := WheelSpec.AddTimeOut(old(Q()).wheel, x, x.data.ExpireTime, Now))
    {
      hide Sound, WheelSpec.Represents, WheelSpec.InWindow, Distinct, Registry.Queues;
      ok := TW.AddTimeOut(x, Now, Space());
    }

    // ---------- poll ----------

    /** The allocations of lines 706-731. */
    static method NewPoll(co: nat, nfds: nat, expire: int) returns (poll_: Item, fds: seq<Item>)
      ensures fresh(poll_) && fresh(fds) && |fds| == nfds && Distinct(fds) && poll_ !in fds
      ensures poll_.Link == null && poll_.data == EQ.FreshPoll(co, expire, fds)
      ensures forall x :: x in fds ==> x.Link == null && x.data == PollFd(co, 0, false, poll_)
    {
      poll_ := new Node(EQ.FreshPoll(co, 0, []));
      fds := [];
      for i := 0 to nfds
        invariant |fds| == i && fresh(fds) && Distinct(fds) && poll_ !in fds && poll_.Link == null
        invariant forall x :: x in fds ==> x.Link == null && x.data == PollFd(co, 0, false, poll_)
      {
        var x := new Node(PollFd(co, 0, false, poll_));
        fds := fds + [x];
      }
      poll_.data := EQ.FreshPoll(co, expire, fds);
    }

    static ghost predicate ObjectsAre(m: map<Item, Event>, co: nat, poll_: Item, fds: seq<Item>, expire: int) {
      && m.Keys == {poll_} + (set x | x in fds) && m[poll_] == EQ.FreshPoll(co, expire, fds)
      && (forall x :: x in m && x != poll_ ==> m[x] == PollFd(co, 0, false, poll_))
    }

    static lemma PollObjectsAre(co: nat, poll_: Item, fds: seq<Item>, expire: int)
      requires poll_ !in fds
      ensures ObjectsAre(EQ.PollObjects(co, poll_, fds, expire), co, poll_, fds, expire)
    {
    }

    /** NewPoll, with its objects counted as live. */
    method AllocatePoll(co: nat, nfds: nat, expire: int) returns (poll_: Item, fds: seq<Item>, ghost group: set<Item>)
      requires Valid()
      modifies `live
      ensures Valid() && fresh(poll_) && fresh(fds) && fresh(group) && |fds| == nfds && Distinct(fds) && poll_ !in fds
      ensures group == EQ.PollObjects(co, poll_, fds, expire).Keys && poll_ in group && (forall x :: x in fds ==> x in group)
      ensures live == old(live) + group && (forall n :: n in CV.waiters ==> n.data !in group)
      ensures forall x :: x in group ==> x.Link == null
      ensures poll_.data == EQ.FreshPoll(co, expire, fds)
      ensures Q() == old(Q()).(ev := old(Q()).ev + EQ.PollObjects(co, poll_, fds, expire))
    {
      hide Links, Registry.Valid, WaiterItems, Registry.Queues, Distinct, EQ.PollObjects, EventMap;
      poll_, fds := NewPoll(co, nfds, expire);
      ghost var objects := EQ.PollObjects(co, poll_, fds, expire);
      PollObjectsAre(co, poll_, fds, expire);
      group := objects.Keys;
      Adopt(group);
      assert objects == map x | x in group :: x.data;
    }

    /** Co_poll_inner up to its Co_yeild; when the timer is refused it returns -1 without waiting. */
    method PollEnter(co: nat, nfds: nat, timeout: int, Now: int) returns (poll_: Item, fds: seq<Item>, ok: bool)
      requires Valid() && Now > 0
      modifies this, TW, lists, live`Prev, live`Next
      ensures Valid() && fresh(poll_) && fresh(fds) && |fds| == nfds && Distinct(fds) && poll_ !in fds
      ensures ok <==> timeout >= 0 && Fits(old(Q()).wheel, timeout, Now)
      ensures Q() == EQ.PollEnter(old(Q()), co, poll_, fds, timeout, Now)
    {
      hide Links, Registry.Valid, WaiterItems, Registry.Queues, WheelSpec.Accepts, EQ.Linked, EQ.PollObjects, Distinct;
      ghost var q, group := Q(), {};
      FitsIs(q.wheel, timeout, Now);
      hide Fits;
      poll_, fds, group := AllocatePoll(co, nfds, Now + timeout);
      LinkedIsLink(poll_);
      ok := AddTimer(poll_, Now);
      if !ok {
        Release(group);
        assert q.ev.Keys !! group;
        assert Q().ev == q.ev;
      }
    }
  
    /** Nothing the poll allocated is on a list, except perhaps its timer. */
    ghost predicate OthersOff(poll_: Item)
      requires CV.Valid()
      reads this, TW, ActiveLink, TimeoutLink, live, CV, CV.cvs, CV.waiters
    {
      && EQ.IsWait(Q(), poll_) && Q().ev[poll_].Poll?
      && forall x :: x in Q().ev[poll_].WillJoinEpoll ==> x in live && x.data.PollFd? && !EQ.Linked(Q(), x)
    }

    /** Co_poll_inner after its Co_yeild (lines 767-785). */
    method PollLeave(poll_: Item) returns (RaisedNumber: int)
      requires Valid() && OthersOff(poll_)
      modifies this, TW, lists, live`Prev, live`Next, poll_`Link
      ensures Valid() && RaisedNumber == old(poll_.data).RaisedNumber
      ensures Q() == EQ.PollLeave(old(Q()), poll_)
    {
      RaisedNumber := poll_.data.RaisedNumber;
      ghost var group := EQ.PollItems(Q(), poll_);
      forall x | x in group && x != poll_ ensures x in live && x.Link == null {
        LinkedIsLink(x);
      }
      hide Links, Registry.Valid, Registry.Queues, EQ.Linked, EQ.Unlink;
      Unlink(poll_);
      Release(group);
    }

    // ---------- condition variables ----------

    method NewWaiter(co: nat, expire: int) returns (node: Waiter)
      requires Valid()
      modifies `live
      ensures Valid() && fresh(node) && fresh(node.data) && node.Link == null
      ensures node.data !in old(Q()).ev && node.data in live && node.data.Link == null
      ensures node !in CV.waiters && forall n :: n in CV.waiters ==> n.data != node.data
      ensures node.data.data == Event.Cv(co, expire, false) && live == old(live) + {node.data}
      ensures Q() == old(Q()).(ev := old(Q()).ev[node.data := Event.Cv(co, expire, false)])
    {
      hide Links, Registry.Valid, Registry.Queues, Distinct;
      ghost var q := Q();
      var item := new Node(Event.Cv(co, expire, false));
      node := new Node(item);
      Adopt({item});
      assert Q().ev == q.ev[item := item.data];
    }

    /** The clock is not early, and the timeout ends within the 86400 ticks that the wheel covers. */
    static predicate Fits(w: WheelSpec.Wheel<Item>, timeout: int, Now: int) {
      var start := if w.start == 0 then Now else w.start;
      start <= Now && Now + timeout - start < 86400
    }

    static lemma FitsIs(w: WheelSpec.Wheel<Item>, timeout: int, Now: int)
      ensures WheelSpec.Accepts(w, Now + timeout, Now) <==> timeout >= 0 && Fits(w, timeout, Now)
    {
    }

    /** ConditionVariableWait up to its Co_yeild (lines 896-914). */
    method WaitEnter(co: nat, cv: Cv, TimeOut: int, Now: int) returns (node: Waiter, ok: bool)
      requires Valid() && cv in CV.cvs && Now > 0
      modifies this, TW, lists, live`Prev, live`Next, CV`waiters, CV.cvs, CV.waiters`Prev, CV.waiters`Next
      ensures Valid() && fresh(node) && fresh(node.data)
      ensures ok <==> TimeOut <= 0 || Fits(old(Q()).wheel, TimeOut, Now)
      ensures Q() == EQ.WaitEnter(old(Q()), co, node.data, cv, TimeOut, Now)
    {
      hide Links, Registry.Valid, Registry.Queues, WaiterItems, WheelSpec.Accepts, EQ.Linked, Q, Distinct;
      ghost var q := Q();
      FitsIs(q.wheel, TimeOut, Now);
      hide Fits;
      node := NewWaiter(co, if TimeOut > 0 then Now + TimeOut else 0);
      LinkedIsLink(node.data);
      if TimeOut > 0 {
        ok := AddTimer(node.data, Now);
        if !ok {
          Release({node.data});
          assert Q().ev == q.ev;
          return;
        }
      }
      ok := true;
      Enqueue(cv, node);
    }

    /** AddTail of a new condition-variable item. */
    method Enqueue(cv: Cv, node: Waiter)
      requires Valid() && cv in CV.cvs && node !in CV.waiters && node.Link == null
      requires node.data in live && node.data.data.Cv? && forall n :: n in CV.waiters ==> n.data != node.data
      modifies CV`waiters, CV.cvs, CV.waiters`Prev, CV.waiters`Next, node`Prev, node`Next, node`Link
      ensures Valid()
      ensures Q() == old(Q()).(cvs := old(Q()).cvs[cv := EQ.Waiters(old(Q()), cv) + [node.data]])
    {
      hide Links, Registry.Valid, Registry.Queues;
      CvKeys();
      CV.Enqueue(cv, node);
    }

    lemma CvKeys()
      requires Valid()
      ensures Q().cvs.Keys == CV.cvs
    {
    }

    /** ConditionVariableWait after its Co_yeild (lines 919-922); its event item must be on no list. */
    method WaitLeave(node: Waiter)
      requires Valid() && node in CV.waiters && !EQ.Linked(Q(), node.data)
      modifies this, CV`waiters, CV.cvs, CV.waiters`Prev, CV.waiters`Next, node`Link
      ensures Valid() && Q() == EQ.WaitLeave(old(Q()), node.data)
    {
      hide Links, Registry.Valid, Registry.Queues, EQ.Linked, WheelSpec.Represents, Distinct;
      LinkedIsLink(node.data);
      DequeueWaiter(node);
      Release({node.data});
    }

    method DequeueWaiter(node: Waiter)
      requires Valid() && node in CV.waiters
      modifies CV`waiters, CV.cvs, CV.waiters`Prev, CV.waiters`Next, node`Link
      ensures Valid() && forall n :: n in CV.waiters ==> n.data != node.data
      ensures Q() == old(Q()).(cvs := map cv | cv in old(Q()).cvs :: Without(old(Q()).cvs[cv], node.data))
    {
      hide Links, Registry.Valid, Registry.Queues;
      CvKeys();
      CV.Dequeue(node);
    }

    method ConditionVariableInit() returns (cv: Cv)
      requires Valid()
      modifies CV`cvs
      ensures Valid() && fresh(cv) && cv in CV.cvs
      ensures Q() == old(Q()).(cvs := old(Q()).cvs[cv := []])
    {
      hide Links, Registry.Valid, Registry.Queues;
      cv := CV.ConditionVariableInit();
    }

    method PopFromLink(cv: Cv) returns (head: Node?<Item>)
      requires Valid() && cv in CV.cvs
      modifies CV.cvs, CV.waiters`Prev, CV.waiters`Next, CV.waiters`Link
      ensures Valid()
      ensures head == null <==> EQ.Waiters(old(Q()), cv) == []
      ensures head == null ==> Q() == old(Q())
      ensures head != null ==> head.data in live && head.data == EQ.Waiters(old(Q()), cv)[0]
      ensures head != null ==> Q() == old(Q()).(cvs := old(Q()).cvs[cv := EQ.Waiters(old(Q()), cv)[1..]])
    {
      hide Links, Registry.Valid, Registry.Queues;
      CvKeys();
      head := CV.PopFromLink(cv);
    }

    /** ConditionVariableSignal (lines 933-945). */
    method ConditionVariableSignal(cv: Cv) returns (r: int)
      requires Valid() && cv in CV.cvs
      modifies TW, lists, live, CV.cvs, CV.waiters
      ensures Valid() && Q() == EQ.Signal(old(Q()), cv)
      ensures r == if EQ.Waiters(old(Q()), cv) == [] then -1 else 0
    {
      hide Links, Registry.Valid, Registry.Queues, WaiterItems, EQ.Unlink, EQ.AddActive;
      var head := PopFromLink(cv);
      if head == null {
        return -1;
      }
      Unlink(head.data);
      AddActive(head.data);
      return 0;
    }

    /** ConditionVariableBroadcast (lines 948-957). */
    method ConditionVariableBroadcast(cv: Cv) returns (r: int)
      requires Valid() && cv in CV.cvs
      modifies TW, lists, live, CV.cvs, CV.waiters
      ensures Valid() && Q() == EQ.Broadcast(old(Q()), cv) && r == 0
    {
      hide Links, Registry.Valid, Registry.Queues, WaiterItems, EQ.Unlink, EQ.AddActive, EQ.Broadcast, Q;
      while true
        invariant Valid() && EQ.Broadcast(Q(), cv) == EQ.Broadcast(old(Q()), cv)
        decreases |EQ.Waiters(Q(), cv)|
      {
        BroadcastUnfolds(Q(), cv);
        var head := PopFromLink(cv);
        if head == null {
          break;
        }
        Unlink(head.data);
        AddActive(head.data);
      }
      return 0;
    }

    lemma BroadcastUnfolds(q: EQ.Queues, cv: Cv)
      ensures EQ.Waiters(q, cv) == [] ==> EQ.Broadcast(q, cv) == q
      ensures EQ.Waiters(q, cv) != [] ==>
        EQ.Broadcast(q, cv) == EQ.Broadcast(EQ.Signal(q, cv), cv)
        && EQ.Waiters(EQ.Signal(q, cv), cv) == EQ.Waiters(q, cv)[1..]
    {
    }
  }
}
