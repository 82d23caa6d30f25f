/** In which order items enter the active list and leave it (Co_Routine.cpp:684-697, 811-850, 933-957). */
module QueueOrder {
  import opened Sequences
  import opened Events
  import opened WheelSpec
  import opened EventQueues
  import opened QueueInvariant
  import opened Scheduler
  import opened SchedulerInvariant
  import opened SchedulerTheorems
  import opened SchedulerTiming

  // ---------- signals ----------

  /** The wheel without the items xs, the others as they were. */
  ghost predicate WheelWithout(r: Wheel<Item>, w: Wheel<Item>, xs: seq<Item>) {
    && r.start == w.start && Items(r.held) == Minus(Items(w.held), xs)
    && (forall e :: e in r.held ==> e in w.held && e.item !in xs)
    && (forall e :: e in w.held && e.item !in xs ==> e in r.held)
    && (forall t :: DueAt(r.held, t) == Minus(DueAt(w.held, t), xs))
  }

  lemma DropOne(w: Wheel<Item>, x: Item)
    ensures WheelWithout(w.(held := Drop(w.held, x)), w, [x])
  {
    ItemsDrop(w.held, x);
    WithoutIsMinus(Items(w.held), x);
    DropHas(w.held, x);
    forall t ensures DueAt(Drop(w.held, x), t) == Minus(DueAt(w.held, t), [x]) {
      DueAtDrop(w.held, x, t);
      WithoutIsMinus(DueAt(w.held, t), x);
    }
  }

  lemma WithoutMore(r: Wheel<Item>, w: Wheel<Item>, v: Wheel<Item>, xs: seq<Item>, ys: seq<Item>)
    requires WheelWithout(w, v, xs) && WheelWithout(r, w, ys)
    ensures WheelWithout(r, v, xs + ys)
  {
    MinusMinus(Items(v.held), xs, ys, xs + ys);
    forall t ensures DueAt(r.held, t) == Minus(DueAt(v.held, t), xs + ys) {
      MinusMinus(DueAt(v.held, t), xs, ys, xs + ys);
    }
  }

  lemma WithoutNone(w: Wheel<Item>)
    ensures WheelWithout(w, w, [])
  {
    MinusNone(Items(w.held), []);
    forall t ensures DueAt(w.held, t) == Minus(DueAt(w.held, t), []) {
      MinusNone(DueAt(w.held, t), []);
    }
  }

  lemma {:induction false} DueRangeWithout(r: Wheel<Item>, w: Wheel<Item>, xs: seq<Item>, from: int, upto: int)
    requires WheelWithout(r, w, xs)
    ensures DueRange(r.held, from, upto) == Minus(DueRange(w.held, from, upto), xs)
    decreases upto - from
  {
    hide DueAt;
    if from < upto {
      DueRangeWithout(r, w, xs, from, upto - 1);
      MinusConcat(DueRange(w.held, from, upto - 1), DueAt(w.held, upto - 1), xs);
    }
  }

  /** A signal moves the first waiter to the end of the active list, from its queue and from wherever it
      was pending, and changes nothing else. */
  lemma SignalMoves(q: Queues, cv: Cv, now: int, done: seq<Item>)
    requires QInv(q, now, done)
    ensures Waiters(q, cv) == [] ==> Signal(q, cv) == q
    ensures Waiters(q, cv) != [] ==>
              var x, r := Waiters(q, cv)[0], Signal(q, cv);
              && r.active == Without(q.active, x) + [x]
              && r.cvs == q.cvs[cv := Waiters(q, cv)[1..]]
              && WheelWithout(r.wheel, q.wheel, [x]) && r.timeout == q.timeout && r.ev == q.ev
  {
    if Waiters(q, cv) != [] {
      var x := Waiters(q, cv)[0];
      QueueHead(q, cv, now, done);
      QInvLists(q, now, done);
      hide QInv;
      OtherCvs(q, q.cvs[cv := Waiters(q, cv)[1..]]);
      var u := q.(cvs := q.cvs[cv := Waiters(q, cv)[1..]]);
      ActivateFacts(u, x);
      DropOne(q.wheel, x);
      hide Lists, InWindow, WheelWithout;
      assert q.timeout == [] by { NoTimeout(q); }
    }
  }

  lemma NoTimeout(q: Queues)
    requires Lists(q)
    ensures q.timeout == []
  {
  }

  /** A broadcast moves all waiters there, in the order in which they wait. */
  lemma {:induction false} BroadcastMoves(q: Queues, cv: Cv, now: int, done: seq<Item>)
    requires QInv(q, now, done)
    ensures var xs, r := Waiters(q, cv), Broadcast(q, cv);
            && r.active == Minus(q.active, xs) + xs
            && r.cvs == (if xs == [] then q.cvs else q.cvs[cv := []])
            && WheelWithout(r.wheel, q.wheel, xs) && r.timeout == q.timeout && r.ev == q.ev
    decreases |Waiters(q, cv)|
  {
    hide QInv, Signal, WheelWithout;
    var xs := Waiters(q, cv);
    SignalMoves(q, cv, now, done);
    if xs != [] {
      var x, rest, u := xs[0], xs[1..], Signal(q, cv);
      assert Waiters(u, cv) == rest;
      SignalKeeps(q, cv, now, done);
      BroadcastMoves(u, cv, now, done);
      WaitersDistinct(q, cv, now, done);
      MoveOne(q.active, x, rest);
      assert [x] + rest == xs;
      WithoutMore(Broadcast(q, cv).wheel, u.wheel, q.wheel, [x], rest);
    } else {
      NothingMoves(q);
    }
  }

  lemma NothingMoves(q: Queues)
    ensures Minus(q.active, []) + [] == q.active && WheelWithout(q.wheel, q.wheel, [])
  {
    MinusNone(q.active, []);
    WithoutNone(q.wheel);
  }

  lemma WaitersDistinct(q: Queues, cv: Cv, now: int, done: seq<Item>)
    requires QInv(q, now, done) && Waiters(q, cv) != []
    ensures Waiters(q, cv)[0] !in Waiters(q, cv)[1..]
  {
    hide Lists, Shapes, Timers, OnePending, Polls, Signalled, ActiveDue;
  }

  lemma MoveOne(s: seq<Item>, x: Item, xs: seq<Item>)
    requires x !in xs
    ensures Minus(Without(s, x) + [x], xs) + xs == Minus(s, [x] + xs) + ([x] + xs)
  {
    MinusConcat(Without(s, x), [x], xs);
    WithoutIsMinus(s, x);
    MinusMinus(s, [x], xs, [x] + xs);
    MinusNone([x], xs);
  }

  // ---------- a turn ----------

  /** The events that are the first of the batch for their poll. */
  function Firsts(ev: map<Item, Event>, batch: seq<Item>): seq<Item> {
    if batch == [] then []
    else
      var done, x := batch[..|batch| - 1], batch[|batch| - 1];
      Firsts(ev, done) + if Owner(ev, x) in Owners(ev, done) then [] else [x]
  }

  /** One event more: a poll whose first event it is loses its timer and gets the event's item into the
      active list, at the end. */
  lemma CoPrepareMoves(q: Queues, x: Item, now: int, done: seq<Item>)
    requires QInv(q, now, done) && Unlabelled(q.ev) && IsLiveFd(q, x)
    ensures var p, r := q.ev[x].Stpoll, CoPrepare(q, x);
            && r.cvs == q.cvs && SameButHandled(q.ev, r.ev, [p])
            && if q.ev[p].IsHandle then r.wheel == q.wheel && r.active == q.active
               else WheelWithout(r.wheel, q.wheel, [p]) && r.active == q.active + [x]
  {
    hide QInv, WheelWithout, Unlabelled;
    var p := q.ev[x].Stpoll;
    if !q.ev[p].IsHandle {
      PollNotActive(q, now, done, p);
      FdNotLinked(q, now, done, x);
      hide SameButHandled, CoPrepare;
      FirstEvent(q, x);
      DropOne(q.wheel, p);
    }
  }

  /** The polls among ps are handled, the others as much as before. */
  ghost predicate SameButHandled(ev: map<Item, Event>, ev': map<Item, Event>, ps: seq<Item>) {
    && ev'.Keys == ev.Keys
    && forall y :: y in ev && ev[y].Poll? ==> ev'[y].Poll? && (ev'[y].IsHandle <==> ev[y].IsHandle || y in ps)
  }

  lemma FirstEvent(q: Queues, x: Item)
    requires IsLiveFd(q, x) && q.ev[x].Stpoll !in q.active && !Linked(q, x) && !q.ev[q.ev[x].Stpoll].IsHandle
    ensures var p, r := q.ev[x].Stpoll, CoPrepare(q, x);
            && r.active == q.active + [x] && r.wheel == q.wheel.(held := Drop(q.wheel.held, p)) && r.cvs == q.cvs
            && SameButHandled(q.ev, r.ev, [p])
  {
    var p := q.ev[x].Stpoll;
    WithoutMembers(q.active, p);
    WithoutMembers(q.timeout, p);
    ItemsDrop(q.wheel.held, p);
    WithoutMembers(Items(q.wheel.held), p);
  }

  lemma PollNotActive(q: Queues, now: int, done: seq<Item>, p: Item)
    requires QInv(q, now, done) && Unlabelled(q.ev) && p in q.ev && q.ev[p].Poll?
    ensures p !in q.active
  {
    hide Lists, Shapes, Timers, OnePending, Polls, Waits, Signalled;
  }

  lemma FdNotLinked(q: Queues, now: int, done: seq<Item>, x: Item)
    requires QInv(q, now, done) && IsLiveFd(q, x) && !q.ev[q.ev[x].Stpoll].IsHandle
    ensures !Linked(q, x)
  {
    hide Shapes, OnePending, Polls, Waits, Signalled;
    if InWheel(q, x) {
      HeldEvent(q, x);
    }
  }

  ghost predicate NoneHandled(ev: map<Item, Event>) {
    forall p :: p in ev && ev[p].Poll? ==> !ev[p].IsHandle
  }

  lemma {:induction false} PrepareAllMoves(q: Queues, batch: seq<Item>, now: int)
    requires QInv(q, now, []) && Unlabelled(q.ev) && AllLiveFds(q, batch) && NoneHandled(q.ev)
    ensures var r := PrepareAll(q, batch);
            && r.active == q.active + Firsts(q.ev, batch) && r.cvs == q.cvs
            && WheelWithout(r.wheel, q.wheel, Owners(q.ev, batch)) && SameButHandled(q.ev, r.ev, Owners(q.ev, batch))
  {
    hide QInv, Unlabelled, CoPrepare, WheelWithout, NoneHandled, SameButHandled;
    if batch == [] {
      WithoutNone(q.wheel);
      assert Owners(q.ev, batch) == [];
      NoneMore(q.ev);
    } else {
      var done, x := batch[..|batch| - 1], batch[|batch| - 1];
      assert AllLiveFds(q, done) && IsLiveFd(q, x);
      PrepareAllKeeps(q, done, now);
      PrepareAllMoves(q, done, now);
      var r0 := PrepareAll(q, done);
      assert Owners(q.ev, batch) == Owners(q.ev, done) + [Owner(q.ev, x)];
      CoPrepareSame(q, r0, x);
      CoPrepareMoves(r0, x, now, done);
      OneMoreHandled(q.ev, r0.ev, CoPrepare(r0, x).ev, Owners(q.ev, done), x);
      if r0.ev[r0.ev[x].Stpoll].IsHandle {
        WithoutKnown(r0.wheel, q.wheel, Owners(q.ev, done), Owner(q.ev, x));
      } else {
        WithoutMore(CoPrepare(r0, x).wheel, r0.wheel, q.wheel, Owners(q.ev, done), [Owner(q.ev, x)]);
      }
    }
  }

  lemma NoneMore(ev: map<Item, Event>)
    ensures SameButHandled(ev, ev, [])
  {
  }

  lemma WithoutKnown(r: Wheel<Item>, w: Wheel<Item>, xs: seq<Item>, x: Item)
    requires WheelWithout(r, w, xs) && x in xs
    ensures WheelWithout(r, w, xs + [x])
  {
    MinusSame(Items(w.held), xs, xs + [x]);
    forall t ensures DueAt(r.held, t) == Minus(DueAt(w.held, t), xs + [x]) {
      MinusSame(DueAt(w.held, t), xs, xs + [x]);
    }
  }

  /** The next event is the first for its poll exactly when the poll has not been handled. */
  lemma OneMoreHandled(ev: map<Item, Event>, ev0: map<Item, Event>, ev': map<Item, Event>, ps: seq<Item>, x: Item)
    requires NoneHandled(ev) && SameButHandled(ev, ev0, ps) && SameItems(ev, ev0)
    requires x in ev && ev[x].PollFd? && ev[x].Stpoll in ev && ev[ev[x].Stpoll].Poll?
    requires x in ev0 && ev0[x].PollFd? && SameButHandled(ev0, ev', [ev0[x].Stpoll])
    ensures ev0[x].Stpoll == Owner(ev, x) && Owner(ev, x) in ev0 && ev0[Owner(ev, x)].Poll?
    ensures ev0[Owner(ev, x)].IsHandle <==> Owner(ev, x) in ps
    ensures SameButHandled(ev, ev', ps + [Owner(ev, x)])
  {
  }

  lemma NoneHandledNow(s: State)
    requires Inv(s) && !s.draining
    ensures s.batch == [] && QInv(s.q, s.Now, []) && Unlabelled(s.q.ev) && NoneHandled(s.q.ev)
  {
    hide Control, Blocks, OnceEach, Known, Lists, Shapes, Timers, OnePending, Waits, Signalled, ActiveDue;
    forall p | p in s.q.ev && s.q.ev[p].Poll? ensures !s.q.ev[p].IsHandle {
      assert PollPlaced(s.q, p, []);
    }
  }

  /** After what was active, a turn makes active the first event of each poll, in the order of the epoll
      result, and then what is due, by expiry, without the timers of those polls. */
  lemma TurnMoves(s: State, events: seq<Item>, at: int)
    requires Inv(s) && Enabled(s, Turn(events, at))
    ensures var polls, t := Owners(s.q.ev, events), Next(s, Turn(events, at));
            && t.q.active == s.q.active + Firsts(s.q.ev, events) + Minus(TakenOut(s.q.wheel, at), polls)
            && t.q.timeout == [] && t.q.cvs == s.q.cvs && t.q.wheel.start == at
            && Remains(t.q.wheel, s.q.wheel, polls, at)
  {
    NoneHandledNow(s);
    TurnClock(s, events, at);
    hide Inv, Enabled, QInv, Unlabelled, NoneHandled, PrepareAll, Firsts, CollectTimeouts, Remains, Minus, TakenOut, AllLiveFds;
    QueueTurn(s.q, events, s.Now, at);
  }

  lemma QueueTurn(q: Queues, events: seq<Item>, now: int, at: int)
    requires QInv(q, now, []) && Unlabelled(q.ev) && AllLiveFds(q, events) && NoneHandled(q.ev)
    requires 0 < at && q.wheel.start <= at
    ensures var polls, t := Owners(q.ev, events), CollectTimeouts(PrepareAll(q, events), at);
            && t.active == q.active + Firsts(q.ev, events) + Minus(TakenOut(q.wheel, at), polls)
            && t.timeout == [] && t.cvs == q.cvs && t.wheel.start == at && Remains(t.wheel, q.wheel, polls, at)
  {
    var polls, r := Owners(q.ev, events), PrepareAll(q, events);
    hide QInv, Unlabelled, NoneHandled, PrepareAll, Firsts, CollectTimeouts, DueRange, WheelWithout, Remains, Minus,
      TakenOut, SameButHandled, SameItems, AllLiveFds, Later, Owners;
    PrepareAllMoves(q, events, now);
    PrepareAllKeeps(q, events, now);
    PrepareAllStart(q, events);
    CollectMoves(r, now, events, at);
    DueOthers(r.wheel, q.wheel, polls, at);
  }

  /** What is later than now, but for xs. */
  ghost predicate Remains(r: Wheel<Item>, w: Wheel<Item>, xs: seq<Item>, now: int) {
    && (forall e :: e in r.held ==> e in w.held && e.due > now && e.item !in xs)
    && (forall e :: e in w.held && e.due > now && e.item !in xs ==> e in r.held)
  }

  lemma DueOthers(r: Wheel<Item>, w: Wheel<Item>, xs: seq<Item>, now: int)
    requires WheelWithout(r, w, xs)
    ensures r.start == w.start && Remains(Wheel(now, Later(r.held, now)), w, xs, now)
    ensures DueRange(r.held, StartFor(w, now), now + 1) == Minus(TakenOut(w, now), xs)
  {
    DueRangeWithout(r, w, xs, StartFor(w, now), now + 1);
    LaterHas(r.held, now);
  }

  lemma TurnClock(s: State, events: seq<Item>, at: int)
    requires Inv(s) && Enabled(s, Turn(events, at))
    ensures 0 < at && s.q.wheel.start <= at && AllLiveFds(s.q, events) && !s.draining
  {
    hide Control, Blocks, OnceEach, Known, QInv, Quiet;
  }

  lemma CollectMoves(q: Queues, now: int, done: seq<Item>, at: int)
    requires QInv(q, now, done) && at > 0 && q.wheel.start <= at
    ensures var r := CollectTimeouts(q, at);
            && r.active == q.active + DueRange(q.wheel.held, StartFor(q.wheel, at), at + 1) && r.timeout == []
            && r.cvs == q.cvs && r.wheel == Wheel(at, Later(q.wheel.held, at))
  {
    QInvLists(q, now, done);
    hide QInv, InWindow, Shapes, Distinct, DueRange, Later;
  }

  // ---------- a drain ----------

  /** One round of the drain takes the head off the active list; the rest, the wheel and the queues stay,
      but for a condition waiter that leaves its queue. */
  lemma DrainMoves(s: State)
    requires Inv(s) && Enabled(s, Drain) && s.q.active != []
    ensures var w, t := Owner(s.q.ev, s.q.active[0]), DrainOne(s);
            && t.q.active == s.q.active[1..] && t.q.timeout == [] && t.q.wheel == s.q.wheel
            && IsWait(s.q, w) && t.q.ev == s.q.ev - Group(s.q.ev, w)
            && t.q.cvs.Keys == s.q.cvs.Keys
            && forall cv :: cv in s.q.cvs ==> t.q.cvs[cv] == if s.q.ev[w].Cv? then Without(s.q.cvs[cv], w) else s.q.cvs[cv]
  {
    hide QInv, Leave, Sole, Distinct, Quiet, Blocks, OnceEach, Known, Control, Times, Lists, Shapes;
    HeadCanWake(s);
    SoleHead(s.q, s.Now, s.batch);
    QInvLists(s.q, s.Now, s.batch);
    LeaveMoves(s.q, Owner(s.q.ev, s.q.active[0]));
    LeaveEv(s.q, Owner(s.q.ev, s.q.active[0]));
  }

  lemma LeaveMoves(q: Queues, w: Item)
    requires Lists(q) && q.active != [] && Sole(q, q.active[0], w)
    ensures var r := Leave(PopActive(q), w);
            && r.active == q.active[1..] && r.timeout == [] && r.wheel == q.wheel && r.cvs.Keys == q.cvs.Keys
            && forall cv :: cv in q.cvs ==> r.cvs[cv] == if q.ev[w].Cv? then Without(q.cvs[cv], w) else q.cvs[cv]
  {
    var x := q.active[0];
    assert q.active == [x] + q.active[1..];
    assert w !in q.active[1..] && !InWheel(q, w);
    if q.ev[w].Poll? {
      WithoutMembers(q.active[1..], w);
      NotDropped(q.wheel.held, w);
    }
  }

  lemma {:induction false} NotDropped(held: seq<Entry<Item>>, x: Item)
    requires x !in Items(held)
    ensures Drop(held, x) == held
  {
    if held != [] {
      assert Items(held)[0] == held[0].item && Items(held) == [held[0].item] + Items(held[1..]);
      NotDropped(held[1..], x);
    }
  }

  // ---------- first come, first served ----------

  /** x, for the wait v, is active before y, for the wait w, and no signal can move it. */
  ghost predicate InLine(s: State, x: Item, v: Item, y: Item, w: Item) {
    Serving(s, x, v) && Serving(s, y, w) && Before(s.q.active, x, y) && !Queued(s.q, x)
  }

  lemma QueuesSame(q: Queues, r: Queues, x: Item)
    requires r.cvs == q.cvs
    ensures Queued(r, x) <==> Queued(q, x)
  {
  }

  lemma WaitQueues(q: Queues, r: Queues, item: Item, cv: Cv, x: Item)
    requires r.cvs == q.cvs || r.cvs == q.cvs[cv := Waiters(q, cv) + [item]]
    requires x != item && !Queued(q, x)
    ensures !Queued(r, x)
  {
  }

  lemma SignalInLine(q: Queues, cv: Cv, now: int, done: seq<Item>, x: Item, y: Item)
    requires QInv(q, now, done) && Before(q.active, x, y) && !Queued(q, x)
    ensures Before(Signal(q, cv).active, x, y) && !Queued(Signal(q, cv), x)
  {
    SignalMoves(q, cv, now, done);
    hide QInv, Signal, WheelWithout, Before;
    if Waiters(q, cv) != [] {
      assert Waiters(q, cv)[0] in q.cvs[cv];
      BeforeMoved(q.active, Waiters(q, cv)[0], x, y);
    }
  }

  lemma {:induction false} BroadcastInLine(q: Queues, cv: Cv, now: int, done: seq<Item>, x: Item, y: Item)
    requires QInv(q, now, done) && Before(q.active, x, y) && !Queued(q, x)
    ensures Before(Broadcast(q, cv).active, x, y) && !Queued(Broadcast(q, cv), x)
    decreases |Waiters(q, cv)|
  {
    if Waiters(q, cv) != [] {
      SignalMoves(q, cv, now, done);
      SignalKeeps(q, cv, now, done);
      SignalInLine(q, cv, now, done, x, y);
      hide QInv, Signal, WheelWithout, Before, Queued;
      BroadcastInLine(Signal(q, cv), cv, now, done, x, y);
    }
  }

  lemma DrainInLine(s: State, x: Item, v: Item, y: Item, w: Item)
    requires Inv(s) && Enabled(s, Drain) && InLine(s, x, v, y, w) && s.q.active[0] != x
    ensures Before(DrainOne(s).q.active, x, y) && !Queued(DrainOne(s).q, x)
  {
    ActiveOnce(s, x, y);
    BeforeIs(s.q.active, x, y);
    hide Inv, DrainOne, Before, Queued;
    DrainTail(s, x);
  }

  lemma DrainTail(s: State, x: Item)
    requires Inv(s) && Enabled(s, Drain) && s.q.active != [] && !Queued(s.q, x)
    ensures DrainOne(s).q.active == s.q.active[1..] && !Queued(DrainOne(s).q, x)
  {
    DrainMoves(s);
    hide Inv, DrainOne, Group, Queued, Owner, Without;
    LeavesQueue(s.q, DrainOne(s).q, Owner(s.q.ev, s.q.active[0]), x);
  }

  lemma LeavesQueue(q: Queues, r: Queues, w: Item, x: Item)
    requires r.cvs.Keys == q.cvs.Keys && !Queued(q, x)
    requires forall cv :: cv in q.cvs ==> r.cvs[cv] == Without(q.cvs[cv], w) || r.cvs[cv] == q.cvs[cv]
    ensures !Queued(r, x)
  {
    if Queued(r, x) {
      var cv :| cv in r.cvs && x in r.cvs[cv];
      WithoutMembers(q.cvs[cv], w);
    }
  }

  lemma CallInLine(s: State, a: Action, x: Item, y: Item)
    requires Inv(s) && Enabled(s, a) && s.draining && x in s.q.ev && Before(s.q.active, x, y) && !Queued(s.q, x)
    requires a.CallPoll? || a.CallWait?
    ensures Before(Next(s, a).q.active, x, y) && !Queued(Next(s, a).q, x)
  {
    hide Inv, PollEnter, WaitEnter, Before, Queued, IsNewPoll, Accepts, WaitAccepted;
    var t := Next(s, a).q;
    match a
    case CallPoll(poll, fds, timeout, at) =>
      PollRefusedWhen(s, poll, fds, timeout, at);
      if Next(s, a).started != s.started {
        PollEnters(s, poll, fds, timeout, at);
      }
      hide Next;
      QueuesSame(s.q, t, x);
    case CallWait(item, cv, timeout, at) =>
      WaitRefusedWhen(s, item, cv, timeout, at);
      assert item !in s.q.ev by { NotYet(s, item); }
      hide Next;
      WaitQueues(s.q, t, item, cv, x);
  }

  lemma NotYet(s: State, x: Item)
    requires Inv(s) && x !in s.seen
    ensures x !in s.q.ev
  {
    hide QInv, Control, Blocks, Quiet, OnceEach;
  }

  lemma StepOrder(s: State, a: Action, x: Item, v: Item, y: Item, w: Item)
    requires Inv(s) && Enabled(s, a) && InLine(s, x, v, y, w)
    ensures InLine(Next(s, a), x, v, y, w) || (Popped(s, a, v) && Serving(Next(s, a), y, w))
  {
    StepServes(s, a, x, v);
    StepServes(s, a, y, w);
    ActiveOnce(s, x, y);
    hide Inv, Before, Queued, Next, Broadcast, Signal;
    match a
    case CallPoll(poll, fds, timeout, at) => CallInLine(s, a, x, y);
    case CallWait(item, cv, timeout, at) => CallInLine(s, a, x, y);
    case CallSignal(cv) => SignalInOrder(s, cv, x, y);
    case CallBroadcast(cv) => SignalInOrder(s, cv, x, y);
    case Drain =>
      if s.q.active[0] == x {
        HeadIsPopped(s, x, v);
      } else {
        DrainInLine(s, x, v, y, w);
        assert Next(s, a) == DrainOne(s) by { NextDrain(s); }
      }
    case _ => NoMove(s, a, x);
  }

  ghost predicate Popped(s: State, a: Action, v: Item) {
    s.call != [] && exists r :: Next(s, a).log == s.log + [Wake(v, r)]
  }

  lemma NextDrain(s: State)
    requires s.call != []
    ensures Next(s, Drain) == DrainOne(s)
  {
  }

  lemma NoMove(s: State, a: Action, x: Item)
    requires Enabled(s, a) && s.draining && (a.Resume? || a.Yield? || a.Finish? || a.Turn?)
    ensures Next(s, a).q == s.q
  {
  }

  lemma SignalInOrder(s: State, cv: Cv, x: Item, y: Item)
    requires Inv(s) && Before(s.q.active, x, y) && !Queued(s.q, x) && s.call != []
    ensures Before(Next(s, CallSignal(cv)).q.active, x, y) && !Queued(Next(s, CallSignal(cv)).q, x)
    ensures Before(Next(s, CallBroadcast(cv)).q.active, x, y) && !Queued(Next(s, CallBroadcast(cv)).q, x)
  {
    hide QInv, Control, Blocks, Quiet, OnceEach, Known, Before, Queued, Signal, Broadcast;
    SignalInLine(s.q, cv, s.Now, s.batch, x, y);
    BroadcastInLine(s.q, cv, s.Now, s.batch, x, y);
  }

  lemma ActiveOnce(s: State, x: Item, y: Item)
    requires Inv(s) && Before(s.q.active, x, y)
    ensures s.q.active != [] && s.q.active[0] != y
  {
    QInvLists(s.q, s.Now, s.batch);
    hide QInv, Control, Blocks, Quiet, OnceEach, Known, InWindow, Shapes;
  }

  lemma HeadIsPopped(s: State, x: Item, v: Item)
    requires Inv(s) && Enabled(s, Drain) && Serving(s, x, v) && s.q.active[0] == x
    ensures Popped(s, Drain, v)
  {
    DrainWakesOne(s);
    hide Inv, DrainOne, GroupOffLists, Group;
    NextDrain(s);
  }

  ghost predicate ReturnsBefore(log: seq<Wake>, v: Item, w: Item) {
    exists i, j :: 0 <= i < j < |log| && log[i].wait == v && log[j].wait == w
  }

  /** Of two items that are active in a drain, the wait of the first returns before the wait of the
      second, whatever the resumed coroutines do meanwhile, unless the first can still be signalled. */
  lemma {:induction false} ServedInOrder(s: State, run: seq<Action>, x: Item, v: Item, y: Item, w: Item)
    requires Inv(s) && Valid(s, run) && !After(s, run).draining
    requires InLine(s, x, v, y, w)
    ensures ReturnsBefore(After(s, run).log, v, w)
    decreases |run|
  {
    hide Enabled, Next, Inv, ReturnsBefore, Popped;
    assert run != [] by { ServingDrains(s, x, v); }
    StepKeeps(s, run[0]);
    StepOrder(s, run[0], x, v, y, w);
    CallNotEmpty(s);
    var t := Next(s, run[0]);
    OwnerStarted(s, y);
    StartedStays(s, run[0], w);
    if InLine(t, x, v, y, w) {
      ServedInOrder(t, run[1..], x, v, y, w);
    } else {
      DrainServes(t, run[1..], y, w);
      LogGrows(t, run[1..]);
      NotReturnedYet(t, y, w);
      LaterReturn(s, run[0], v, w, After(t, run[1..]).log);
    }
  }

  lemma NotReturnedYet(s: State, y: Item, w: Item)
    requires Inv(s) && Serving(s, y, w) && w in s.started
    ensures w !in Returned(s.log)
  {
    OwnerLives(s, y);
    hide QInv, Control, Blocks, Quiet, Known, Returned;
  }

  lemma OwnerStarted(s: State, y: Item)
    requires Inv(s) && y in s.q.ev
    ensures Owner(s.q.ev, y) in s.started
  {
    OwnerLives(s, y);
    QInvLists(s.q, s.Now, s.batch);
    hide QInv, Control, Blocks, Quiet, Known, Lists, InWindow, Distinct;
    assert s.q.ev[y].PollFd? ==> FdShape(s.q.ev, y);
  }

  lemma OwnerLives(s: State, y: Item)
    requires Inv(s) && y in s.q.ev
    ensures Owner(s.q.ev, y) in s.q.ev
  {
    QInvLists(s.q, s.Now, s.batch);
    hide QInv, Control, Blocks, Quiet, OnceEach, Known, Lists, InWindow;
    assert s.q.ev[y].PollFd? ==> FdShape(s.q.ev, y);
  }

  lemma LaterReturn(s: State, a: Action, v: Item, w: Item, log: seq<Wake>)
    requires Popped(s, a, v) && w in Returned(log)
    requires var t := Next(s, a); w !in Returned(t.log) && |t.log| <= |log| && log[..|t.log|] == t.log
    ensures ReturnsBefore(log, v, w)
  {
    var n := |Next(s, a).log|;
    hide Next;
    var r :| Next(s, a).log == s.log + [Wake(v, r)];
    var j :| 0 <= j < |Returned(log)| && Returned(log)[j] == w;
    assert log[n - 1] == log[..n][n - 1] && log[n - 1].wait == v;
    assert forall k :: 0 <= k < n ==> Returned(log[..n])[k] == log[k].wait;
  }
}
