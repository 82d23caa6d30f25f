/** The invariant of the queues and the proof that every queue operation keeps it. */
module QueueInvariant {
  import opened Sequences
  import opened Events
  import opened WheelSpec
  import opened EventQueues

  /** The timer of the poll, or the condition-variable item, whose wait x would end. */
  function Owner(ev: map<Item, Event>, x: Item): Item {
    if x in ev && ev[x].PollFd? then ev[x].Stpoll else x
  }

  function Owners(ev: map<Item, Event>, xs: seq<Item>): (r: seq<Item>)
    ensures |r| == |xs|
  {
    seq(|xs|, i requires 0 <= i < |xs| => Owner(ev, xs[i]))
  }

  ghost predicate Pending(q: Queues, x: Item) {
    InWheel(q, x) || x in q.active
  }

  /** How many of the events in `batch` were for the given descriptors. */
  function Count(batch: seq<Item>, fds: seq<Item>): nat {
    if batch == [] then 0
    else Count(batch[..|batch| - 1], fds) + if batch[|batch| - 1] in fds then 1 else 0
  }

  // ---------- the parts of the invariant ----------

  /** Every item is on at most one list, at most once, and only live items are on lists. */
  ghost predicate Lists(q: Queues) {
    && q.timeout == []
    && Distinct(Items(q.wheel.held))
    && Distinct(q.active)
    && (forall x :: x in q.active ==> !InWheel(q, x) && x in q.ev)
    && (forall x :: x in Items(q.wheel.held) ==> x in q.ev)
  }

  ghost predicate PollShape(ev: map<Item, Event>, p: Item)
    requires p in ev && ev[p].Poll?
  {
    var fds := ev[p].WillJoinEpoll;
    && Distinct(fds)
    && forall x :: x in fds ==> x in ev && ev[x].PollFd? && ev[x].Stpoll == p && ev[x].ItemCo == ev[p].ItemCo
  }

  ghost predicate FdShape(ev: map<Item, Event>, x: Item)
    requires x in ev && ev[x].PollFd?
  {
    var p := ev[x].Stpoll;
    && p in ev && ev[p].Poll? && x in ev[p].WillJoinEpoll
  }

  /** A poll and its descriptors point at each other. */
  ghost predicate Shapes(ev: map<Item, Event>) {
    && (forall p :: p in ev && ev[p].Poll? ==> PollShape(ev, p))
    && (forall x :: x in ev && ev[x].PollFd? ==> FdShape(ev, x))
  }

  /** The wheel holds timers under their own expiry; an item is labelled only once it left the wheel. */
  ghost predicate Timers(wheel: Wheel<Item>, ev: map<Item, Event>) {
    && InWindow(wheel)
    && forall e :: e in wheel.held && e.item in ev ==>
         !ev[e.item].PollFd? && ev[e.item].ExpireTime == e.due && !ev[e.item].IsTimeout
  }

  /** One wait has at most one pending entry, be it its timer, an event or a signal. */
  ghost predicate OnePending(q: Queues) {
    forall x, y :: x in q.ev && y in q.ev && Pending(q, x) && Pending(q, y) && Owner(q.ev, x) == Owner(q.ev, y) ==> x == y
  }

  ghost predicate PollPlaced(q: Queues, p: Item, done: seq<Item>)
    requires p in q.ev && q.ev[p].Poll?
  {
    var e := q.ev[p];
    && (!e.IsHandle ==> Pending(q, p))
    && (e.IsHandle ==> exists x :: x in e.WillJoinEpoll && x in q.active)
    && e.RaisedNumber == Count(done, e.WillJoinEpoll)
    && (e.IsHandle <==> e.RaisedNumber > 0)
  }

  /** Every poll has a pending entry, and its counter is the number of its events in this turn. */
  ghost predicate Polls(q: Queues, done: seq<Item>) {
    forall p :: p in q.ev && q.ev[p].Poll? ==> PollPlaced(q, p, done)
  }

  ghost predicate Queued(q: Queues, x: Item) {
    exists cv :: cv in q.cvs && x in q.cvs[cv]
  }

  /** A condition waiter that is timed, or that has been signalled, has a pending entry. */
  ghost predicate Waits(q: Queues) {
    && (forall x :: x in q.ev && q.ev[x].Cv? && (q.ev[x].ExpireTime > 0 || !Queued(q, x)) ==> Pending(q, x))
    && (forall cv :: cv in q.cvs ==> Distinct(q.cvs[cv]))
    && (forall cv, x :: cv in q.cvs && x in q.cvs[cv] ==> x in q.ev && q.ev[x].Cv?)
    && (forall cv, cv', x :: cv in q.cvs && cv' in q.cvs && x in q.cvs[cv] && x in q.cvs[cv'] ==> cv == cv')
  }

  /** An active condition waiter left the wheel by its timeout, or its queue by a signal. */
  ghost predicate Signalled(q: Queues) {
    forall x :: x in q.active && x in q.ev && q.ev[x].Cv? ==>
      if q.ev[x].IsTimeout then q.ev[x].ExpireTime > 0 else !Queued(q, x)
  }

  /** A labelled item is active and due; the timer of a poll gets there only by being due, and its
      descriptors only by being handled. */
  ghost predicate ActiveDue(active: seq<Item>, ev: map<Item, Event>, now: int) {
    && (forall x :: x in ev && ev[x].IsTimeout ==> x in active && !ev[x].PollFd? && ev[x].ExpireTime <= now)
    && (forall x :: x in active && x in ev ==>
          && (ev[x].Poll? ==> ev[x].IsTimeout)
          && (ev[x].PollFd? ==> Owner(ev, x) in ev && ev[Owner(ev, x)].Poll? && ev[Owner(ev, x)].IsHandle))
  }

  ghost predicate QInv(q: Queues, now: int, done: seq<Item>) {
    && Lists(q) && Shapes(q.ev) && Timers(q.wheel, q.ev) && OnePending(q)
    && Polls(q, done) && Waits(q) && Signalled(q) && ActiveDue(q.active, q.ev, now)
  }

  // ---------- unlinking ----------

  /** r is q with x unlinked from the wheel and the active list. */
  ghost predicate Unlinked(q: Queues, r: Queues, x: Item) {
    && Lists(r) && InWindow(r.wheel)
    && Lacks(Items(r.wheel.held), Items(q.wheel.held), x)
    && Lacks(r.active, q.active, x)
    && KeepsOthers(r.wheel.held, q.wheel.held, x)
  }

  lemma UnlinkFacts(q: Queues, x: Item)
    requires Lists(q) && InWindow(q.wheel)
    ensures Unlinked(q, Unlink(q, x), x)
  {
    var held := q.wheel.held;
    ItemsDrop(held, x);
    WithoutMembers(Items(held), x);
    WithoutMembers(q.active, x);
    WithoutDistinct(Items(held), x);
    WithoutDistinct(q.active, x);
    DropHas(held, x);
    DropBounds(held, x, q.wheel.start, q.wheel.start + DefaultSize);
  }

  lemma HeldEvent(q: Queues, x: Item)
    requires Timers(q.wheel, q.ev) && InWheel(q, x) && x in q.ev
    ensures !q.ev[x].PollFd? && !q.ev[x].IsTimeout && Entry(x, q.ev[x].ExpireTime) in q.wheel.held
  {
    InItems(q.wheel.held, x);
    var e :| e in q.wheel.held && e.item == x;
    assert e == Entry(x, e.due);
  }

  // ---------- signal and broadcast ----------

  /** r has the pending items of q, and x besides, which is now active. */
  ghost predicate Activated(q: Queues, r: Queues, x: Item) {
    && r.ev == q.ev
    && Lacks(Items(r.wheel.held), Items(q.wheel.held), x)
    && Gains(r.active, q.active, x)
    && (forall e :: e in r.wheel.held ==> e in q.wheel.held)
  }

  /** Moving x to the tail of the active list, wherever it was before. */
  lemma ActivateFacts(q: Queues, x: Item)
    requires Lists(q) && InWindow(q.wheel) && x in q.ev
    ensures var r := AddActive(Unlink(q, x), x); Lists(r) && InWindow(r.wheel) && Activated(q, r, x)
    ensures AddActive(Unlink(q, x), x).active == Without(q.active, x) + [x]
  {
    UnlinkFacts(q, x);
  }

  lemma ActivatePolls(q: Queues, r: Queues, x: Item, done: seq<Item>)
    requires Polls(q, done) && Activated(q, r, x) && x in q.ev && !q.ev[x].Poll?
    ensures Polls(r, done)
  {
    forall p | p in r.ev && r.ev[p].Poll? ensures PollPlaced(r, p, done) {
      assert PollPlaced(q, p, done);
    }
  }

  lemma ActivateOne(q: Queues, r: Queues, x: Item, done: seq<Item>)
    requires OnePending(q) && Shapes(q.ev) && Activated(q, r, x) && x in q.ev && q.ev[x].Cv?
    ensures OnePending(r)
  {
  }

  lemma ActivateDue(q: Queues, r: Queues, x: Item, now: int)
    requires ActiveDue(q.active, q.ev, now) && Activated(q, r, x) && x in q.ev && q.ev[x].Cv?
    ensures ActiveDue(r.active, r.ev, now)
  {
  }

  lemma SignalWaits(q: Queues, cv: Cv)
    requires Waits(q) && Waiters(q, cv) != [] && Activated(q, Signal(q, cv), Waiters(q, cv)[0])
    ensures Waits(Signal(q, cv))
  {
    var r, x := Signal(q, cv), Waiters(q, cv)[0];
    assert r.cvs == q.cvs[cv := q.cvs[cv][1..]];
    forall y | y in r.ev && r.ev[y].Cv? && (r.ev[y].ExpireTime > 0 || !Queued(r, y)) ensures Pending(r, y) {
      if y != x && Queued(q, y) {
        var c :| c in q.cvs && y in q.cvs[c];
        assert y in r.cvs[c];
      }
    }
  }

  lemma SignalSignalled(q: Queues, cv: Cv, now: int)
    requires Waits(q) && Signalled(q) && ActiveDue(q.active, q.ev, now)
    requires Waiters(q, cv) != [] && Activated(q, Signal(q, cv), Waiters(q, cv)[0])
    ensures Signalled(Signal(q, cv))
  {
    var r, x := Signal(q, cv), Waiters(q, cv)[0];
    forall y | y in r.active && y in r.ev && r.ev[y].Cv?
      ensures if r.ev[y].IsTimeout then r.ev[y].ExpireTime > 0 else !Queued(r, y)
    {
      if Queued(r, y) {
        StillQueued(q, cv, y);
      }
    }
  }

  /** After a signal the head of the queue is the only one that left it. */
  lemma StillQueued(q: Queues, cv: Cv, y: Item)
    requires Waits(q) && Waiters(q, cv) != [] && Queued(Signal(q, cv), y)
    ensures Queued(q, y) && y != Waiters(q, cv)[0]
  {
    var r := Signal(q, cv);
    assert r.cvs == q.cvs[cv := q.cvs[cv][1..]] && Waiters(q, cv)[0] in q.cvs[cv];
    var c :| c in r.cvs && y in r.cvs[c];
    assert y in q.cvs[c];
  }

  lemma SignalKeeps(q: Queues, cv: Cv, now: int, done: seq<Item>)
    requires QInv(q, now, done)
    ensures QInv(Signal(q, cv), now, done)
  {
    if Waiters(q, cv) != [] {
      var x := Waiters(q, cv)[0];
      assert x in q.ev && q.ev[x].Cv?;
      hide Shapes, OnePending, Polls, Waits, Signalled, ActiveDue;
      var u := q.(cvs := q.cvs[cv := Waiters(q, cv)[1..]]);
      ActivateFacts(u, x);
      var r := Signal(q, cv);
      assert Activated(q, r, x);
      ActivatePolls(q, r, x, done);
      ActivateOne(q, r, x, done);
      ActivateDue(q, r, x, now);
      SignalWaits(q, cv);
      SignalSignalled(q, cv, now);
    }
  }

  lemma {:induction false} BroadcastKeeps(q: Queues, cv: Cv, now: int, done: seq<Item>)
    requires QInv(q, now, done)
    ensures QInv(Broadcast(q, cv), now, done)
    decreases |Waiters(q, cv)|
  {
    if Waiters(q, cv) != [] {
      SignalKeeps(q, cv, now, done);
      hide QInv;
      BroadcastKeeps(Signal(q, cv), cv, now, done);
    }
  }

  // ---------- events ----------

  ghost predicate Unlabelled(ev: map<Item, Event>) {
    forall x :: x in ev ==> !ev[x].IsTimeout
  }

  /** r differs from q by one more event, for descriptor x, on the counter of its poll p. */
  ghost predicate Raised(q: Queues, r: Queues, x: Item)
    requires IsLiveFd(q, x)
  {
    var p := q.ev[x].Stpoll;
    && r.ev == q.ev[p := q.ev[p].(RaisedNumber := q.ev[p].RaisedNumber + 1, IsHandle := true)]
    && r.cvs == q.cvs
    && if q.ev[p].IsHandle then r.wheel == q.wheel && r.active == q.active
       else
         && (forall y :: y in r.active ==> y in q.active || y == x)
         && (forall y :: y in q.active ==> y in r.active || y == p)
         && x in r.active && p !in r.active
         && Lacks(Items(r.wheel.held), Items(q.wheel.held), p)
         && KeepsOthers(r.wheel.held, q.wheel.held, p)
  }

  lemma CoPrepareFacts(q: Queues, x: Item, now: int)
    requires IsLiveFd(q, x) && Lists(q) && Timers(q.wheel, q.ev) && ActiveDue(q.active, q.ev, now)
    ensures Raised(q, CoPrepare(q, x), x) && Lists(CoPrepare(q, x)) && InWindow(CoPrepare(q, x).wheel)
  {
    var p := q.ev[x].Stpoll;
    if !q.ev[p].IsHandle {
      var u := q.(ev := q.ev[p := q.ev[p].(RaisedNumber := q.ev[p].RaisedNumber + 1, IsHandle := true)]);
      UnlinkFacts(u, p);
      if InWheel(q, x) {
        HeldEvent(q, x);
      }
      assert x !in q.active;
      var v := Unlink(u, p);
      assert !Linked(v, x);
      assert CoPrepare(q, x) == v.(active := v.active + [x]);
    }
  }

  lemma CountAppend(done: seq<Item>, x: Item, fds: seq<Item>)
    ensures Count(done + [x], fds) == Count(done, fds) + if x in fds then 1 else 0
  {
    assert (done + [x])[..|done|] == done;
  }

  lemma RaisedPolls(q: Queues, r: Queues, x: Item, done: seq<Item>)
    requires IsLiveFd(q, x) && Polls(q, done) && Shapes(q.ev) && Raised(q, r, x)
    ensures Polls(r, done + [x])
  {
    var p := q.ev[x].Stpoll;
    forall p' | p' in r.ev && r.ev[p'].Poll? ensures PollPlaced(r, p', done + [x]) {
      assert PollPlaced(q, p', done) && PollShape(q.ev, p');
      CountAppend(done, x, q.ev[p'].WillJoinEpoll);
      if q.ev[p'].IsHandle {
        var y :| y in q.ev[p'].WillJoinEpoll && y in q.active;
        assert y in r.active && y in r.ev[p'].WillJoinEpoll;
      }
    }
  }

  lemma RaisedOne(q: Queues, r: Queues, x: Item, now: int)
    requires IsLiveFd(q, x) && OnePending(q) && Shapes(q.ev) && Timers(q.wheel, q.ev) && Raised(q, r, x)
    requires ActiveDue(q.active, q.ev, now)
    ensures OnePending(r)
  {
    var p := q.ev[x].Stpoll;
    forall y, z | y in r.ev && z in r.ev && Pending(r, y) && Pending(r, z) && Owner(r.ev, y) == Owner(r.ev, z)
      ensures y == z
    {
      assert Owner(r.ev, y) == Owner(q.ev, y) && Owner(r.ev, z) == Owner(q.ev, z);
      if !q.ev[p].IsHandle && (y == x || z == x) {
        var w := if y == x then z else y;
        if w != x && InWheel(q, w) {
          HeldEvent(q, w);
        }
      }
    }
  }

  lemma RaisedDue(q: Queues, r: Queues, x: Item, now: int)
    requires IsLiveFd(q, x) && ActiveDue(q.active, q.ev, now) && Unlabelled(q.ev) && Raised(q, r, x)
    ensures ActiveDue(r.active, r.ev, now) && Unlabelled(r.ev)
  {
  }

  lemma RaisedWaits(q: Queues, r: Queues, x: Item)
    requires IsLiveFd(q, x) && Waits(q) && Raised(q, r, x)
    ensures Waits(r)
  {
    forall y | y in r.ev && r.ev[y].Cv? && (r.ev[y].ExpireTime > 0 || !Queued(r, y)) ensures Pending(r, y) {
      assert q.ev[y].Cv? && Queued(q, y) == Queued(r, y);
    }
  }

  lemma RaisedSignalled(q: Queues, r: Queues, x: Item)
    requires IsLiveFd(q, x) && Signalled(q) && Raised(q, r, x)
    ensures Signalled(r)
  {
    forall y | y in r.active && y in r.ev && r.ev[y].Cv?
      ensures if r.ev[y].IsTimeout then r.ev[y].ExpireTime > 0 else !Queued(r, y)
    {
      assert q.ev[y] == r.ev[y] && Queued(q, y) == Queued(r, y);
    }
  }

  lemma RaisedShapes(q: Queues, r: Queues, x: Item)
    requires IsLiveFd(q, x) && Shapes(q.ev) && Timers(q.wheel, q.ev) && InWindow(r.wheel) && Raised(q, r, x)
    ensures Shapes(r.ev) && Timers(r.wheel, r.ev)
  {
    forall p | p in r.ev && r.ev[p].Poll? ensures PollShape(r.ev, p) {
      assert PollShape(q.ev, p);
    }
    forall y | y in r.ev && r.ev[y].PollFd? ensures FdShape(r.ev, y) {
      assert FdShape(q.ev, y);
    }
  }

  lemma CoPrepareKeeps(q: Queues, x: Item, now: int, done: seq<Item>)
    requires QInv(q, now, done) && Unlabelled(q.ev) && IsLiveFd(q, x)
    ensures QInv(CoPrepare(q, x), now, done + [x]) && Unlabelled(CoPrepare(q, x).ev)
  {
    hide Lists, Shapes, Timers, OnePending, Polls, Waits, Signalled, ActiveDue, Raised;
    var r := CoPrepare(q, x);
    CoPrepareFacts(q, x, now);
    RaisedPolls(q, r, x, done);
    RaisedOne(q, r, x, now);
    RaisedDue(q, r, x, now);
    RaisedWaits(q, r, x);
    RaisedSignalled(q, r, x);
    RaisedShapes(q, r, x);
  }

  /** Events change no item but the polls they are for. */
  ghost predicate SameItems(ev: map<Item, Event>, ev': map<Item, Event>) {
    && ev.Keys == ev'.Keys
    && forall x :: x in ev ==>
         if ev[x].Poll? then
           && ev'[x].Poll? && ev'[x].WillJoinEpoll == ev[x].WillJoinEpoll
           && ev'[x].ItemCo == ev[x].ItemCo && ev'[x].ExpireTime == ev[x].ExpireTime && ev'[x].IsTimeout == ev[x].IsTimeout
         else ev'[x] == ev[x]
  }

  ghost predicate AllLiveFds(q: Queues, batch: seq<Item>) {
    forall i :: 0 <= i < |batch| ==> IsLiveFd(q, batch[i])
  }

  lemma CoPrepareSame(q: Queues, r: Queues, x: Item)
    requires SameItems(q.ev, r.ev) && IsLiveFd(q, x)
    ensures IsLiveFd(r, x) && SameItems(q.ev, CoPrepare(r, x).ev)
  {
    hide Linked;
  }

  lemma {:induction false} PrepareAllKeeps(q: Queues, batch: seq<Item>, now: int)
    requires QInv(q, now, []) && Unlabelled(q.ev) && AllLiveFds(q, batch)
    ensures QInv(PrepareAll(q, batch), now, batch) && Unlabelled(PrepareAll(q, batch).ev)
    ensures SameItems(q.ev, PrepareAll(q, batch).ev)
  {
    hide QInv, Unlabelled, SameItems, CoPrepare;
    if batch != [] {
      var done, x := batch[..|batch| - 1], batch[|batch| - 1];
      PrepareAllKeeps(q, done, now);
      var r := PrepareAll(q, done);
      CoPrepareSame(q, r, x);
      CoPrepareKeeps(r, x, now, done);
      assert done + [x] == batch;
    } else {
      assert SameItems(q.ev, q.ev) by {
        SameItemsSelf(q.ev);
      }
    }
  }

  lemma SameItemsSelf(ev: map<Item, Event>)
    ensures SameItems(ev, ev)
  {
  }

  // ---------- collecting the timers of a turn ----------

  /** r is q with the due timers moved to the active list and labelled. */
  ghost predicate Expired(q: Queues, r: Queues, late: seq<Item>, now: int) {
    && r.timeout == [] && r.cvs == q.cvs && r.active == q.active + late
    && r.wheel == Wheel(now, Later(q.wheel.held, now))
    && r.ev == Labelled(q.ev, late)
    && Distinct(late)
    && (forall x :: x in late ==> x in Items(q.wheel.held))
    && (forall x :: x in late && x in q.ev ==> q.ev[x].ExpireTime <= now)
    && (forall x :: x in Items(q.wheel.held) ==> (x in late <==> x !in Items(r.wheel.held)))
    && (forall x :: x in Items(r.wheel.held) ==> x in Items(q.wheel.held))
  }

  lemma ExpiredOne(q: Queues, x: Item, now: int)
    requires Lists(q) && Timers(q.wheel, q.ev) && 0 < q.wheel.start <= now && InWheel(q, x)
    ensures x in TakenOut(q.wheel, now) <==> q.ev[x].ExpireTime <= now
    ensures x in Items(Later(q.wheel.held, now)) <==> q.ev[x].ExpireTime > now
  {
    HeldEvent(q, x);
    var e := Entry(x, q.ev[x].ExpireTime);
    TakeOutIsExact(q.wheel, now, e);
    InItems(Later(q.wheel.held, now), x);
    LaterHas(q.wheel.held, now);
    if x in Items(Later(q.wheel.held, now)) {
      var f :| f in Later(q.wheel.held, now) && f.item == x;
      OneEntry(q.wheel.held, e, f);
    }
  }

  lemma CollectFacts(q: Queues, now: int)
    requires Lists(q) && Timers(q.wheel, q.ev) && now > 0 && q.wheel.start <= now
    ensures Expired(q, CollectTimeouts(q, now), TakenOut(q.wheel, now), now)
    ensures InWindow(CollectTimeouts(q, now).wheel)
  {
    var late, r := TakenOut(q.wheel, now), CollectTimeouts(q, now);
    var b := Begin(q.wheel, now);
    assert q.timeout + late == late;
    DueRangeDistinct(q.wheel.held, b.start, now + 1);
    TakeOutKeepsWindow(b, now);
    LaterItems(q.wheel.held, now);
    forall x | x in late ensures x in Items(q.wheel.held) {
      DueRangeHas(q.wheel.held, b.start, now + 1, x);
      InItems(q.wheel.held, x);
      var t :| b.start <= t < now + 1 && Entry(x, t) in q.wheel.held;
      assert Entry(x, t).item == x;
    }
    forall x | x in Items(q.wheel.held)
      ensures x in late <==> x !in Items(r.wheel.held)
      ensures x in late ==> q.ev[x].ExpireTime <= now
    {
      ExpiredOne(q, x, now);
    }
  }

  lemma LabelledShapes(ev: map<Item, Event>, late: seq<Item>)
    requires Shapes(ev)
    ensures Shapes(Labelled(ev, late))
  {
    var ev' := Labelled(ev, late);
    forall p | p in ev' && ev'[p].Poll? ensures PollShape(ev', p) {
      assert PollShape(ev, p);
    }
    forall y | y in ev' && ev'[y].PollFd? ensures FdShape(ev', y) {
      assert FdShape(ev, y);
    }
  }

  lemma ExpiredLists(q: Queues, r: Queues, late: seq<Item>, now: int)
    requires Lists(q) && Expired(q, r, late, now)
    requires OnePending(q)
    ensures Lists(r) && OnePending(r)
  {
    LaterItems(q.wheel.held, now);
    forall i, j | 0 <= i < j < |r.active| ensures r.active[i] != r.active[j] {
      if i < |q.active| <= j {
        assert r.active[i] in q.active && r.active[j] in late;
      }
    }
  }

  lemma ExpiredPolls(q: Queues, r: Queues, late: seq<Item>, now: int, done: seq<Item>)
    requires Polls(q, done) && Expired(q, r, late, now)
    ensures Polls(r, done)
  {
    forall p | p in r.ev && r.ev[p].Poll? ensures PollPlaced(r, p, done) {
      assert PollPlaced(q, p, done);
      if q.ev[p].IsHandle {
        var y :| y in q.ev[p].WillJoinEpoll && y in q.active;
        assert y in r.active && y in r.ev[p].WillJoinEpoll;
      }
    }
  }

  lemma ExpiredWaits(q: Queues, r: Queues, late: seq<Item>, now: int)
    requires Waits(q) && Expired(q, r, late, now)
    ensures Waits(r)
  {
    forall y | y in r.ev && r.ev[y].Cv? && (r.ev[y].ExpireTime > 0 || !Queued(r, y)) ensures Pending(r, y) {
      assert q.ev[y].Cv? && Queued(q, y) == Queued(r, y) && Pending(q, y);
    }
  }

  lemma ExpiredSignalled(q: Queues, r: Queues, late: seq<Item>, now: int)
    requires Signalled(q) && Unlabelled(q.ev) && Timers(q.wheel, q.ev) && Expired(q, r, late, now) && Lists(q)
    ensures Signalled(r)
  {
    forall y | y in r.active && y in r.ev && r.ev[y].Cv?
      ensures if r.ev[y].IsTimeout then r.ev[y].ExpireTime > 0 else !Queued(r, y)
    {
      if y in late {
        HeldEvent(q, y);
      } else {
        assert y in q.active && q.ev[y] == r.ev[y] && Queued(q, y) == Queued(r, y);
      }
    }
  }

  lemma ExpiredTimers(q: Queues, r: Queues, late: seq<Item>, now: int)
    requires Timers(q.wheel, q.ev) && InWindow(r.wheel) && Expired(q, r, late, now) && Lists(q)
    ensures Timers(r.wheel, r.ev)
  {
    LaterHas(q.wheel.held, now);
    forall e | e in r.wheel.held && e.item in r.ev
      ensures !r.ev[e.item].PollFd? && r.ev[e.item].ExpireTime == e.due && !r.ev[e.item].IsTimeout
    {
      InItems(r.wheel.held, e.item);
      assert e in q.wheel.held;
      assert e.item in Items(r.wheel.held);
    }
  }

  lemma ExpiredDue(q: Queues, r: Queues, late: seq<Item>, now: int)
    requires ActiveDue(q.active, q.ev, now) && Unlabelled(q.ev) && Expired(q, r, late, now)
    requires Timers(q.wheel, q.ev) && Lists(q) && Shapes(q.ev)
    ensures ActiveDue(r.active, r.ev, now)
  {
    forall x | x in late ensures x in q.ev && !q.ev[x].PollFd? {
      HeldEvent(q, x);
    }
  }

  lemma CollectKeeps(q: Queues, now: int, done: seq<Item>)
    requires QInv(q, now, done) && Unlabelled(q.ev) && now > 0 && q.wheel.start <= now
    ensures QInv(CollectTimeouts(q, now), now, done)
  {
    hide Shapes, Timers, OnePending, Polls, Waits, Signalled, ActiveDue, Expired, Unlabelled;
    var r, late := CollectTimeouts(q, now), TakenOut(q.wheel, now);
    CollectFacts(q, now);
    LabelledShapes(q.ev, late);
    ExpiredLists(q, r, late, now);
    ExpiredPolls(q, r, late, now, done);
    ExpiredWaits(q, r, late, now);
    ExpiredSignalled(q, r, late, now);
    ExpiredTimers(q, r, late, now);
    ExpiredDue(q, r, late, now);
  }

  // ---------- a wake-up ----------

  /** The objects of one wait: a poll with its descriptors, or a condition item. */
  function Group(ev: map<Item, Event>, w: Item): set<Item>
    requires w in ev
  {
    {w} + if ev[w].Poll? then (set x | x in ev[w].WillJoinEpoll) else {}
  }

  /** r is q after the wait w ended through its pending entry x. */
  ghost predicate Ended(q: Queues, r: Queues, x: Item, w: Item)
    requires w in q.ev
  {
    && r.timeout == []
    && r.ev == q.ev - Group(q.ev, w)
    && r.wheel.start == q.wheel.start
    && Distinct(Items(r.wheel.held)) && Distinct(r.active) && InWindow(r.wheel)
    && (forall e :: e in r.wheel.held ==> e in q.wheel.held)
    && (forall y :: y in Items(r.wheel.held) ==> y in Items(q.wheel.held))
    && (forall y :: y in Items(q.wheel.held) && y != w ==> y in Items(r.wheel.held))
    && (forall y :: y in r.active ==> y in q.active && y != x)
    && (forall y :: y in q.active && y != x && y != w ==> y in r.active)
    && (q.ev[w].Poll? ==> r.cvs == q.cvs)
    && (q.ev[w].Cv? ==> r.cvs.Keys == q.cvs.Keys && forall cv :: cv in q.cvs ==> r.cvs[cv] == Without(q.cvs[cv], w))
  }

  lemma EndedFacts(q: Queues, w: Item)
    requires Lists(q) && InWindow(q.wheel) && q.active != [] && IsWait(q, w)
    ensures Ended(q, Leave(PopActive(q), w), q.active[0], w)
  {
    var u := PopActive(q);
    var x := q.active[0];
    assert q.active == [x] + u.active;
    forall y | y in u.active ensures y in q.active && y != x {
    }
    assert Lists(u);
    if q.ev[w].Poll? {
      UnlinkFacts(u, w);
    }
  }

  /** The one pending entry of the wait that just ended is gone, so nothing freed is still on a list. */
  ghost predicate Sole(q: Queues, x: Item, w: Item) {
    && x in q.ev && x in q.active && IsWait(q, w) && w == Owner(q.ev, x)
    && forall y :: y in q.ev && Pending(q, y) && y != x ==> Owner(q.ev, y) != w
  }

  lemma NotInGroup(ev: map<Item, Event>, w: Item, y: Item)
    requires Shapes(ev) && w in ev && !ev[w].PollFd? && y in ev && Owner(ev, y) != w
    ensures y !in Group(ev, w)
  {
    if ev[w].Poll? {
      assert PollShape(ev, w);
    }
  }

  lemma OtherPoll(ev: map<Item, Event>, w: Item, y: Item)
    requires Shapes(ev) && w in ev && !ev[w].PollFd? && y in ev && ev[y].PollFd? && y !in Group(ev, w)
    ensures ev[y].Stpoll in ev && ev[y].Stpoll !in Group(ev, w)
  {
    assert FdShape(ev, y);
    NotInGroup(ev, w, ev[y].Stpoll);
  }

  lemma EndedLists(q: Queues, r: Queues, x: Item, w: Item)
    requires Lists(q) && Shapes(q.ev) && OnePending(q) && Sole(q, x, w) && Ended(q, r, x, w)
    ensures Lists(r) && OnePending(r)
  {
    forall y | y in r.active || y in Items(r.wheel.held) ensures y in r.ev && Owner(r.ev, y) == Owner(q.ev, y) {
      assert Pending(q, y) && y != x;
      NotInGroup(q.ev, w, y);
    }
    assert OnePending(r) by {
      forall y, z | y in r.ev && z in r.ev && Pending(r, y) && Pending(r, z) && Owner(r.ev, y) == Owner(r.ev, z)
        ensures y == z
      {
        assert Owner(r.ev, y) == Owner(q.ev, y) && Owner(r.ev, z) == Owner(q.ev, z);
      }
    }
  }

  lemma EndedShapes(q: Queues, r: Queues, x: Item, w: Item)
    requires Shapes(q.ev) && Sole(q, x, w) && Ended(q, r, x, w)
    ensures Shapes(r.ev)
  {
    forall p | p in r.ev && r.ev[p].Poll? ensures PollShape(r.ev, p) {
      assert PollShape(q.ev, p);
      forall y | y in q.ev[p].WillJoinEpoll ensures y in r.ev {
        NotInGroup(q.ev, w, y);
      }
    }
    forall y | y in r.ev && r.ev[y].PollFd? ensures FdShape(r.ev, y) {
      assert FdShape(q.ev, y);
      OtherPoll(q.ev, w, y);
    }
  }

  lemma EndedPolls(q: Queues, r: Queues, x: Item, w: Item, done: seq<Item>)
    requires Polls(q, done) && Shapes(q.ev) && Sole(q, x, w) && Ended(q, r, x, w)
    ensures Polls(r, done)
  {
    forall p | p in r.ev && r.ev[p].Poll? ensures PollPlaced(r, p, done) {
      assert PollPlaced(q, p, done) && PollShape(q.ev, p) && p != w;
      if q.ev[p].IsHandle {
        var y :| y in q.ev[p].WillJoinEpoll && y in q.active;
        assert y in r.active && y in r.ev[p].WillJoinEpoll;
      }
    }
  }

  ghost predicate QueuesLose(q: Queues, r: Queues, w: Item) {
    && r.cvs.Keys == q.cvs.Keys
    && (forall cv :: cv in q.cvs ==> Distinct(r.cvs[cv]))
    && (forall cv, y :: cv in q.cvs && y in r.cvs[cv] ==> y in q.cvs[cv] && y != w)
    && (forall cv, y :: cv in q.cvs && y in q.cvs[cv] && y != w ==> y in r.cvs[cv])
  }

  lemma EndedQueues(q: Queues, r: Queues, x: Item, w: Item)
    requires Waits(q) && IsWait(q, w) && Ended(q, r, x, w)
    ensures QueuesLose(q, r, w)
  {
    if q.ev[w].Cv? {
      forall cv | cv in q.cvs ensures Distinct(r.cvs[cv]) && Lacks(r.cvs[cv], q.cvs[cv], w) {
        WithoutDistinct(q.cvs[cv], w);
        WithoutMembers(q.cvs[cv], w);
      }
    }
  }

  lemma EndedWaits(q: Queues, r: Queues, x: Item, w: Item)
    requires Waits(q) && Shapes(q.ev) && Sole(q, x, w) && Ended(q, r, x, w) && QueuesLose(q, r, w)
    ensures Waits(r)
  {
    hide Distinct;
    forall y | y in r.ev && r.ev[y].Cv? && (r.ev[y].ExpireTime > 0 || !Queued(r, y)) ensures Pending(r, y) {
      if Queued(q, y) {
        var cv :| cv in q.cvs && y in q.cvs[cv];
        assert y in r.cvs[cv];
      }
      assert Pending(q, y);
    }
    forall cv, y | cv in r.cvs && y in r.cvs[cv] ensures y in r.ev && r.ev[y].Cv? {
      assert y in q.cvs[cv] && y != w;
      NotInGroup(q.ev, w, y);
    }
  }

  lemma EndedSignalled(q: Queues, r: Queues, x: Item, w: Item)
    requires w in q.ev && Signalled(q) && Ended(q, r, x, w) && QueuesLose(q, r, w)
    ensures Signalled(r)
  {
    hide Distinct, InWindow;
    forall y | y in r.active && y in r.ev && r.ev[y].Cv?
      ensures if r.ev[y].IsTimeout then r.ev[y].ExpireTime > 0 else !Queued(r, y)
    {
      assert y in q.active && q.ev[y] == r.ev[y];
      if Queued(r, y) {
        var c :| c in r.cvs && y in r.cvs[c];
        assert y in q.cvs[c];
      }
    }
  }

  lemma EndedDue(q: Queues, r: Queues, x: Item, w: Item, now: int)
    requires ActiveDue(q.active, q.ev, now) && Shapes(q.ev) && Sole(q, x, w) && Ended(q, r, x, w)
    requires Timers(q.wheel, q.ev)
    ensures ActiveDue(r.active, r.ev, now) && Timers(r.wheel, r.ev)
  {
    forall y | y in r.ev && r.ev[y].PollFd? ensures Owner(q.ev, y) != w && Owner(q.ev, y) in r.ev {
      assert FdShape(q.ev, y);
      OtherPoll(q.ev, w, y);
    }
  }

  lemma SoleHead(q: Queues, now: int, done: seq<Item>)
    requires QInv(q, now, done) && q.active != []
    ensures var x := q.active[0]; var w := Owner(q.ev, x);
            x in q.ev && Sole(q, x, w) && IsWait(q, w) && q.ev[w].ItemCo == q.ev[x].ItemCo
  {
    var x := q.active[0];
    assert x in q.active;
    if q.ev[x].PollFd? {
      assert FdShape(q.ev, x);
      assert PollShape(q.ev, q.ev[x].Stpoll);
    }
  }

  lemma LeaveKeeps(q: Queues, now: int, done: seq<Item>)
    requires QInv(q, now, done) && q.active != [] && IsWait(q, Owner(q.ev, q.active[0]))
    ensures QInv(Leave(PopActive(q), Owner(q.ev, q.active[0])), now, done)
  {
    SoleHead(q, now, done);
    hide Lists, Shapes, OnePending, Polls, Waits, Signalled, ActiveDue, Ended, Sole, Leave, QueuesLose;
    var x := q.active[0];
    var w := Owner(q.ev, x);
    var r := Leave(PopActive(q), w);
    EndedFacts(q, w);
    EndedLists(q, r, x, w);
    EndedShapes(q, r, x, w);
    EndedPolls(q, r, x, w, done);
    EndedQueues(q, r, x, w);
    EndedWaits(q, r, x, w);
    EndedSignalled(q, r, x, w);
    EndedDue(q, r, x, w, now);
  }

  // ---------- starting a wait ----------

  /** r is q with new items, of which only `timer`, if any, is on a list: the wheel. */
  ghost predicate Entered(q: Queues, r: Queues, added: map<Item, Event>, timer: seq<Item>) {
    && r.ev == q.ev + added && added.Keys !! q.ev.Keys
    && r.timeout == q.timeout && r.active == q.active
    && (forall x :: x in added ==> !added[x].IsTimeout)
    && InWindow(r.wheel)
    && |timer| <= 1
    && Items(r.wheel.held) == Items(q.wheel.held) + timer
    && (forall x :: x in timer ==> x in added && !added[x].PollFd?)
    && forall e :: e in r.wheel.held ==> e in q.wheel.held || (e.item in timer && e.item in added && added[e.item].ExpireTime == e.due)
  }

  lemma AddTimeOutFacts(w: Wheel<Item>, x: Item, expire: int, now: int)
    requires InWindow(w) && now > 0
    ensures InWindow(AddTimeOut(w, x, expire, now)) && InWindow(Begin(w, now))
    ensures Accepts(w, expire, now) ==> AddTimeOut(w, x, expire, now).held == w.held + [Entry(x, expire)]
    ensures Accepts(w, expire, now) ==> Items(AddTimeOut(w, x, expire, now).held) == Items(w.held) + [x]
  {
  }

  lemma EnteredLists(q: Queues, r: Queues, added: map<Item, Event>, timer: seq<Item>)
    requires Lists(q) && Entered(q, r, added, timer)
    ensures Lists(r)
  {
    var a := Items(q.wheel.held);
    forall i, j | 0 <= i < j < |a + timer| ensures (a + timer)[i] != (a + timer)[j] {
      if i < |a| <= j {
        assert a[i] in a && timer[j - |a|] in timer;
      }
    }
  }

  lemma EnteredOne(q: Queues, r: Queues, added: map<Item, Event>, timer: seq<Item>)
    requires Lists(q) && OnePending(q) && Shapes(q.ev) && Entered(q, r, added, timer)
    ensures OnePending(r)
  {
    hide Distinct, InWindow;
    forall y | y in r.ev && Pending(r, y)
      ensures y in timer || (y in q.ev && Pending(q, y))
      ensures Owner(r.ev, y) in timer <==> y in timer
      ensures y !in timer ==> Owner(r.ev, y) == Owner(q.ev, y)
    {
      if y in q.ev && q.ev[y].PollFd? {
        assert FdShape(q.ev, y);
      }
    }
  }

  lemma EnteredPolls(q: Queues, r: Queues, added: map<Item, Event>, timer: seq<Item>, done: seq<Item>)
    requires Polls(q, done) && Entered(q, r, added, timer)
    requires NewPollsIdle(added, timer, done)
    ensures Polls(r, done)
  {
    forall p | p in r.ev && r.ev[p].Poll? ensures PollPlaced(r, p, done) {
      if p in q.ev {
        assert PollPlaced(q, p, done);
      }
    }
  }

  /** A poll among the new items has its timer running and no event yet. */
  ghost predicate NewPollsIdle(added: map<Item, Event>, timer: seq<Item>, done: seq<Item>) {
    forall p :: p in added && added[p].Poll? ==>
      && p in timer && !added[p].IsHandle && added[p].RaisedNumber == 0
      && Count(done, added[p].WillJoinEpoll) == 0
  }

  lemma EnteredDue(q: Queues, r: Queues, added: map<Item, Event>, timer: seq<Item>, now: int)
    requires Lists(q) && ActiveDue(q.active, q.ev, now) && Timers(q.wheel, q.ev) && Shapes(q.ev)
    requires Entered(q, r, added, timer)
    ensures ActiveDue(r.active, r.ev, now) && Timers(r.wheel, r.ev)
  {
    forall x | x in q.active && x in q.ev && q.ev[x].PollFd? ensures Owner(r.ev, x) == Owner(q.ev, x) {
      assert FdShape(q.ev, x);
    }
    forall e | e in q.wheel.held ensures e.item in q.ev {
      var i :| 0 <= i < |q.wheel.held| && q.wheel.held[i] == e;
      assert Items(q.wheel.held)[i] == e.item;
    }
  }

  lemma EnteredShapes(q: Queues, r: Queues, added: map<Item, Event>, timer: seq<Item>)
    requires Shapes(q.ev) && Shapes(added) && Entered(q, r, added, timer)
    ensures Shapes(r.ev)
  {
    forall p | p in r.ev && r.ev[p].Poll? ensures PollShape(r.ev, p) {
      assert PollShape(if p in added then added else q.ev, p);
    }
    forall y | y in r.ev && r.ev[y].PollFd? ensures FdShape(r.ev, y) {
      assert FdShape(if y in added then added else q.ev, y);
    }
  }

  ghost predicate FreshItems(q: Queues, poll: Item, fds: seq<Item>) {
    && poll !in q.ev && poll !in fds && Distinct(fds)
    && forall x :: x in fds ==> x !in q.ev
  }

  /** Adding items and starting the timer x of one of them. */
  lemma TimerFacts(q: Queues, added: map<Item, Event>, x: Item, expire: int, now: int)
    requires Lists(q) && InWindow(q.wheel) && now > 0 && Accepts(q.wheel, expire, now)
    requires added.Keys !! q.ev.Keys && AllUnlabelled(added)
    requires x in added && !added[x].PollFd? && added[x].ExpireTime == expire
    ensures Entered(q, q.(ev := q.ev + added, wheel := AddTimeOut(q.wheel, x, expire, now)), added, [x])
  {
    AddTimeOutFacts(q.wheel, x, expire, now);
    hide Lists, Accepts, InWindow;
  }

  ghost predicate AllUnlabelled(ev: map<Item, Event>) {
    forall x :: x in ev ==> !ev[x].IsTimeout
  }

  lemma PollEnterFacts(q: Queues, co: nat, poll: Item, fds: seq<Item>, timeout: int, now: int)
    requires Lists(q) && InWindow(q.wheel) && now > 0 && FreshItems(q, poll, fds)
    requires Accepts(q.wheel, now + timeout, now)
    ensures var r := PollEnter(q, co, poll, fds, timeout, now);
            Entered(q, r, PollObjects(co, poll, fds, now + timeout), [poll]) && r.cvs == q.cvs
  {
    hide Accepts, InWindow, Entered, AddTimeOut;
    var r, objects := PollEnter(q, co, poll, fds, timeout, now), PollObjects(co, poll, fds, now + timeout);
    assert r == q.(ev := q.ev + objects, wheel := AddTimeOut(q.wheel, poll, now + timeout, now));
    TimerFacts(q, objects, poll, now + timeout, now);
  }

  lemma PollObjectsFacts(co: nat, poll: Item, fds: seq<Item>, expire: int, done: seq<Item>)
    requires poll !in fds && Distinct(fds)
    requires NoneOf(done, fds)
    ensures var objects := PollObjects(co, poll, fds, expire);
            Shapes(objects) && NewPollsIdle(objects, [poll], done) && NoCv(objects)
  {
    CountNone(done, fds);
  }

  lemma {:induction false} CountNone(done: seq<Item>, fds: seq<Item>)
    requires NoneOf(done, fds)
    ensures Count(done, fds) == 0
  {
    if done != [] {
      CountNone(done[..|done| - 1], fds);
    }
  }

  lemma BeginPolls(q: Queues, w: Wheel<Item>, done: seq<Item>)
    requires Polls(q, done) && w.held == q.wheel.held
    ensures Polls(q.(wheel := w), done)
  {
    forall p | p in q.ev && q.ev[p].Poll? ensures PollPlaced(q.(wheel := w), p, done) {
      assert PollPlaced(q, p, done);
    }
  }

  lemma BeginWaits(q: Queues, w: Wheel<Item>)
    requires Waits(q) && w.held == q.wheel.held
    ensures Waits(q.(wheel := w))
  {
    hide Distinct;
    var r := q.(wheel := w);
    forall y | y in r.ev && r.ev[y].Cv? && (r.ev[y].ExpireTime > 0 || !Queued(r, y)) ensures Pending(r, y) {
      assert Queued(q, y) == Queued(r, y) && Pending(q, y);
    }
  }

  lemma BeginSignalled(q: Queues, w: Wheel<Item>)
    requires Signalled(q)
    ensures Signalled(q.(wheel := w))
  {
    forall y | y in q.active && y in q.ev && q.ev[y].Cv? ensures Queued(q, y) == Queued(q.(wheel := w), y) {
    }
  }

  lemma BeginKeeps(q: Queues, clock: int, now: int, done: seq<Item>)
    requires QInv(q, now, done) && clock > 0
    ensures QInv(q.(wheel := Begin(q.wheel, clock)), now, done)
  {
    hide Shapes, ActiveDue, Polls, Waits, Signalled, Distinct;
    var r := q.(wheel := Begin(q.wheel, clock));
    assert InWindow(r.wheel) && r.wheel.held == q.wheel.held;
    BeginPolls(q, r.wheel, done);
    BeginWaits(q, r.wheel);
    BeginSignalled(q, r.wheel);
  }

  lemma EnteredWaits(q: Queues, r: Queues, added: map<Item, Event>, timer: seq<Item>)
    requires Waits(q) && Entered(q, r, added, timer) && r.cvs == q.cvs
    requires NoCv(added)
    ensures Waits(r)
  {
    forall y | y in r.ev && r.ev[y].Cv? && (r.ev[y].ExpireTime > 0 || !Queued(r, y)) ensures Pending(r, y) {
      assert y in q.ev && Queued(q, y) == Queued(r, y) && Pending(q, y);
    }
  }

  /** New items are not active, and only new items join a queue. */
  lemma EnteredSignalled(q: Queues, r: Queues, added: map<Item, Event>, timer: seq<Item>)
    requires Lists(q) && Signalled(q) && Entered(q, r, added, timer) && OnlyNewJoin(q, r, added)
    ensures Signalled(r)
  {
    hide Distinct, InWindow;
    forall y | y in r.active && y in r.ev && r.ev[y].Cv?
      ensures if r.ev[y].IsTimeout then r.ev[y].ExpireTime > 0 else !Queued(r, y)
    {
      assert y in q.active && y in q.ev && q.ev[y] == r.ev[y];
      if Queued(r, y) {
        var c :| c in r.cvs && y in r.cvs[c];
        assert c in q.cvs && y in q.cvs[c];
      }
    }
  }

  ghost predicate OnlyNewJoin(q: Queues, r: Queues, added: map<Item, Event>) {
    forall cv, y :: cv in r.cvs && y in r.cvs[cv] && y !in added ==> cv in q.cvs && y in q.cvs[cv]
  }

  ghost predicate NoCv(ev: map<Item, Event>) {
    forall x :: x in ev ==> !ev[x].Cv?
  }

  ghost predicate NoneOf(done: seq<Item>, fds: seq<Item>) {
    forall i :: 0 <= i < |done| ==> done[i] !in fds
  }

  lemma PollAccepted(q: Queues, co: nat, poll: Item, fds: seq<Item>, timeout: int, clock: int, now: int, done: seq<Item>)
    requires QInv(q, now, done) && clock > 0 && FreshItems(q, poll, fds) && NoneOf(done, fds)
    requires Accepts(q.wheel, clock + timeout, clock)
    ensures QInv(PollEnter(q, co, poll, fds, timeout, clock), now, done)
  {
    hide Lists, Shapes, OnePending, Polls, Waits, Signalled, ActiveDue, Entered, PollEnter, NewPollsIdle, NoCv, PollObjects, Accepts;
    var r, objects := PollEnter(q, co, poll, fds, timeout, clock), PollObjects(co, poll, fds, clock + timeout);
    PollEnterFacts(q, co, poll, fds, timeout, clock);
    PollObjectsFacts(co, poll, fds, clock + timeout, done);
    EnteredLists(q, r, objects, [poll]);
    EnteredOne(q, r, objects, [poll]);
    EnteredShapes(q, r, objects, [poll]);
    EnteredPolls(q, r, objects, [poll], done);
    EnteredWaits(q, r, objects, [poll]);
    assert OnlyNewJoin(q, r, objects);
    EnteredSignalled(q, r, objects, [poll]);
    EnteredDue(q, r, objects, [poll], now);
  }

  lemma PollEnterKeeps(q: Queues, co: nat, poll: Item, fds: seq<Item>, timeout: int, clock: int, now: int, done: seq<Item>)
    requires QInv(q, now, done) && clock > 0 && FreshItems(q, poll, fds) && NoneOf(done, fds)
    ensures QInv(PollEnter(q, co, poll, fds, timeout, clock), now, done)
  {
    hide QInv, NoneOf;
    if Accepts(q.wheel, clock + timeout, clock) {
      PollAccepted(q, co, poll, fds, timeout, clock, now, done);
    } else {
      BeginKeeps(q, clock, now, done);
    }
  }

  // A wait takes one item, on the wheel only if it is timed.
  function WaitTimer(x: Item, timeout: int): seq<Item> {
    if timeout > 0 then [x] else []
  }

  lemma WaitEnterFacts(q: Queues, co: nat, x: Item, cv: Cv, timeout: int, now: int)
    requires Lists(q) && InWindow(q.wheel) && now > 0 && x !in q.ev && WaitAccepted(q, timeout, now)
    ensures var r := WaitEnter(q, co, x, cv, timeout, now);
            var expire := if timeout > 0 then now + timeout else 0;
            Entered(q, r, map[x := Event.Cv(co, expire, false)], WaitTimer(x, timeout))
            && r.cvs == q.cvs[cv := Waiters(q, cv) + [x]]
  {
    hide Accepts, InWindow, AddTimeOut;
    var expire := if timeout > 0 then now + timeout else 0;
    var added := map[x := Event.Cv(co, expire, false)];
    assert q.ev[x := Event.Cv(co, expire, false)] == q.ev + added;
    if timeout > 0 {
      TimerFacts(q, added, x, expire, now);
    }
  }

  lemma WaitEnteredWaits(q: Queues, r: Queues, co: nat, x: Item, cv: Cv, expire: int, timer: seq<Item>)
    requires Waits(q) && Entered(q, r, map[x := Event.Cv(co, expire, false)], timer)
    requires r.cvs == q.cvs[cv := Waiters(q, cv) + [x]] && x !in q.ev && (expire > 0 ==> timer == [x])
    ensures Waits(r)
  {
    hide InWindow;
    assert x in r.cvs[cv];
    forall y | y in r.ev && r.ev[y].Cv? && (r.ev[y].ExpireTime > 0 || !Queued(r, y)) ensures Pending(r, y) {
      if y == x {
        assert Queued(r, x) && x in timer;
      } else {
        if Queued(q, y) {
          var c :| c in q.cvs && y in q.cvs[c];
          assert y in r.cvs[c];
        }
        assert Pending(q, y);
      }
    }
  }

  lemma WaitEnterKeeps(q: Queues, co: nat, x: Item, cv: Cv, timeout: int, clock: int, now: int, done: seq<Item>)
    requires QInv(q, now, done) && clock > 0 && x !in q.ev
    ensures QInv(WaitEnter(q, co, x, cv, timeout, clock), now, done)
  {
    hide Distinct, InWindow, Pending, Queued;
    if WaitAccepted(q, timeout, clock) {
      var expire := if timeout > 0 then clock + timeout else 0;
      var r, added := WaitEnter(q, co, x, cv, timeout, clock), map[x := Event.Cv(co, expire, false)];
      var timer := WaitTimer(x, timeout);
      WaitEnterFacts(q, co, x, cv, timeout, clock);
      assert Shapes(added) && NewPollsIdle(added, timer, done);
      hide Lists, Shapes, OnePending, Polls, Waits, Signalled, ActiveDue, Entered, WaitEnter, NewPollsIdle, WaitAccepted;
      EnteredLists(q, r, added, timer);
      EnteredOne(q, r, added, timer);
      EnteredShapes(q, r, added, timer);
      EnteredPolls(q, r, added, timer, done);
      WaitEnteredWaits(q, r, co, x, cv, expire, timer);
      assert OnlyNewJoin(q, r, added);
      EnteredSignalled(q, r, added, timer);
      EnteredDue(q, r, added, timer, now);
    } else {
      BeginKeeps(q, clock, now, done);
    }
  }
}
