/** What the scheduler promises, in every run from the initial state. */
module SchedulerTheorems {
  import opened Sequences
  import opened Events
  import opened WheelSpec
  import opened EventQueues
  import opened QueueInvariant
  import opened Scheduler
  import opened SchedulerInvariant

  lemma Reachable(run: seq<Action>)
    requires Valid(Initial(), run)
    ensures Inv(After(Initial(), run))
  {
    InitialInv();
    RunKeeps(Initial(), run);
  }

  // ---------- exactly-once wake ----------

  /** In every run, each accepted poll or condition wait has either not been woken, and then its
      coroutine is blocked in it, or was woken exactly once, and then it is gone. */
  lemma WokenOnce(run: seq<Action>, w: Item)
    requires Valid(Initial(), run) && w in After(Initial(), run).started
    ensures var s := After(Initial(), run);
            && Distinct(Returned(s.log))
            && (w in Returned(s.log) <==> w !in s.q.ev)
            && (w !in Returned(s.log) <==> exists co :: co in s.status && s.status[co] == Blocked(w))
  {
    Reachable(run);
    var s := After(Initial(), run);
    hide QInv, Control, Distinct;
    if w in s.q.ev {
      assert IsWait(s.q, w);
      assert s.status[s.q.ev[w].ItemCo] == Blocked(w);
    }
  }

  ghost predicate OffLists(q: Queues, x: Item) {
    !Linked(q, x) && !Queued(q, x)
  }

  ghost predicate GroupOffLists(q: Queues, group: set<Item>) {
    forall y :: y in group ==> OffLists(q, y) && y !in q.ev
  }

  /** A drain step with work to do wakes exactly one wait, the one the head item belongs to. A poll
      returns the number of its events in this turn's epoll result: none if its timer fired, at
      least one otherwise. Everything the wait allocated is off every list when it is freed. */
  lemma DrainWakesOne(s: State)
    requires Inv(s) && Enabled(s, Drain) && s.q.active != []
    ensures var x := s.q.active[0];
            var w := Owner(s.q.ev, x);
            var t := DrainOne(s);
            && IsWait(s.q, w)
            && t.log == s.log + [Wake(w, WaitResult(s.q, w))]
            && t.call == [Main, s.q.ev[w].ItemCo]
            && (s.q.ev[w].Poll? ==> WaitResult(s.q, w) == Count(s.batch, s.q.ev[w].WillJoinEpoll))
            && (s.q.ev[w].Poll? ==> (x == w <==> WaitResult(s.q, w) == 0))
            && (s.q.ev[w].Cv? ==> WaitResult(s.q, w) == -1)
            && GroupOffLists(t.q, Group(s.q.ev, w))
  {
    hide QInv, GroupOffLists, Group, Leave, Count, Sole, Distinct, Quiet, Blocks, OnceEach, Known;
    HeadCanWake(s);
    SoleHead(s.q, s.Now, s.batch);
    var x := s.q.active[0];
    var w := Owner(s.q.ev, x);
    if s.q.ev[w].Poll? {
      DrainCounts(s.q, s.Now, s.batch);
    }
    LeaveUnlinks(s.q, s.Now, s.batch);
    assert s.call == [Main];
  }

  lemma DrainCounts(q: Queues, now: int, done: seq<Item>)
    requires QInv(q, now, done) && q.active != []
    requires var w := Owner(q.ev, q.active[0]); w in q.ev && q.ev[w].Poll?
    ensures var w := Owner(q.ev, q.active[0]);
            && q.ev[w].RaisedNumber == Count(done, q.ev[w].WillJoinEpoll)
            && (q.active[0] == w <==> q.ev[w].RaisedNumber == 0)
  {
  }

  /** What is not allocated is on no list. */
  lemma FreedIsOff(q: Queues, x: Item)
    requires Lists(q) && Waits(q) && x !in q.ev
    ensures OffLists(q, x)
  {
  }

  lemma LeaveUnlinks(q: Queues, now: int, done: seq<Item>)
    requires QInv(q, now, done) && q.active != []
    requires IsWait(q, Owner(q.ev, q.active[0]))
    ensures var w := Owner(q.ev, q.active[0]);
            GroupOffLists(Leave(PopActive(q), w), Group(q.ev, w))
  {
    hide Lists, Waits, Shapes, Timers, OnePending, Polls, Signalled, ActiveDue, Leave, Linked, Queued;
    var w := Owner(q.ev, q.active[0]);
    LeaveKeeps(q, now, done);
    LeaveEv(q, w);
    var r := Leave(PopActive(q), w);
    forall y | y in Group(q.ev, w) ensures OffLists(r, y) && y !in r.ev {
      FreedIsOff(r, y);
    }
  }

  // ---------- placement ----------

  /** The waits behind everything on the wheel, the timeout list and the active list. */
  function PendingOwners(q: Queues): seq<Item> {
    Owners(q.ev, Items(q.wheel.held) + q.timeout + q.active)
  }

  /** In every reachable state no item is on two of the wheel, the timeout list and the active list,
      no two entries belong to one wait, and the waits without an entry are exactly the untimed
      condition waits that nobody has signalled. */
  lemma OneEntryPerWait(s: State, w: Item)
    requires Inv(s) && IsWait(s.q, w)
    ensures Distinct(Items(s.q.wheel.held) + s.q.timeout + s.q.active)
    ensures Distinct(PendingOwners(s.q))
    ensures w !in PendingOwners(s.q) <==> s.q.ev[w].Cv? && s.q.ev[w].ExpireTime <= 0 && Queued(s.q, w)
  {
    var q := s.q;
    var all := Items(q.wheel.held) + q.timeout + q.active;
    PendingDistinct(q);
    forall i, j | 0 <= i < j < |all| ensures PendingOwners(q)[i] != PendingOwners(q)[j] {
      assert Pending(q, all[i]) && Pending(q, all[j]);
    }
    if w !in PendingOwners(q) {
      NoEntry(q, s.Now, s.batch, w);
    } else {
      HasEntry(q, s.Now, s.batch, w);
    }
  }

  lemma PendingDistinct(q: Queues)
    requires Lists(q)
    ensures Distinct(Items(q.wheel.held) + q.timeout + q.active)
  {
    var a, b := Items(q.wheel.held), q.active;
    assert a + q.timeout + b == a + b;
    forall i, j | 0 <= i < j < |a + b| ensures (a + b)[i] != (a + b)[j] {
      if i < |a| <= j {
        assert a[i] in a && b[j - |a|] in b;
      }
    }
  }

  lemma OwnerOfPending(q: Queues, x: Item)
    requires Pending(q, x)
    ensures Owner(q.ev, x) in PendingOwners(q)
  {
    var all := Items(q.wheel.held) + q.timeout + q.active;
    assert x in all;
    var i :| 0 <= i < |all| && all[i] == x;
    assert PendingOwners(q)[i] == Owner(q.ev, x);
  }

  lemma NoEntry(q: Queues, now: int, done: seq<Item>, w: Item)
    requires QInv(q, now, done) && IsWait(q, w) && w !in PendingOwners(q)
    ensures q.ev[w].Cv? && q.ev[w].ExpireTime <= 0 && Queued(q, w)
  {
    hide PendingOwners, Lists, Timers, OnePending, ActiveDue;
    if Pending(q, w) {
      OwnerOfPending(q, w);
    } else if q.ev[w].Poll? {
      assert PollPlaced(q, w, done) && PollShape(q.ev, w);
      var x :| x in q.ev[w].WillJoinEpoll && x in q.active;
      OwnerOfPending(q, x);
    }
  }

  lemma HasEntry(q: Queues, now: int, done: seq<Item>, w: Item)
    requires QInv(q, now, done) && IsWait(q, w) && w in PendingOwners(q)
    ensures !(q.ev[w].Cv? && q.ev[w].ExpireTime <= 0 && Queued(q, w))
  {
    hide Polls, OnePending;
    var all := Items(q.wheel.held) + q.timeout + q.active;
    var i :| 0 <= i < |all| && PendingOwners(q)[i] == w;
    assert all[i] in q.active || InWheel(q, all[i]);
    if q.ev[all[i]].PollFd? {
      assert FdShape(q.ev, all[i]);
    } else if InWheel(q, w) {
      HeldEvent(q, w);
    }
  }

  // ---------- the loop ----------

  /** The report "Unexpected error" of line 839 is unreachable. */
  lemma NoUnexpectedError(run: seq<Action>)
    requires Valid(Initial(), run)
    ensures var s := After(Initial(), run);
            s.draining && s.q.active != [] ==>
              var x := s.q.active[0];
              x in s.q.ev && !(s.q.ev[x].IsTimeout && s.Now < s.q.ev[x].ExpireTime)
  {
    Reachable(run);
  }

  /** When a drain ends, both lists are empty and only then. */
  lemma DrainEndsEmpty(s: State)
    requires Inv(s) && Enabled(s, Drain)
    ensures !DrainOne(s).draining <==> s.q.active == [] && s.q.timeout == []
    ensures !DrainOne(s).draining ==> DrainOne(s).q == s.q
  {
  }

  /** From when the wheel counts: from the call itself, if it is the first use. */
  function StartFor(w: Wheel<Item>, at: int): int {
    if w.start == 0 then at else w.start
  }

  /** Nothing came of the call: the caller goes on, and no item, queue or list has changed. */
  ghost predicate GoesOn(s: State, t: State, start: int) {
    && t.call == s.call && t.status == s.status && t.started == s.started && t.log == s.log
    && t.q == s.q.(wheel := Wheel(start, s.q.wheel.held))
  }

  /** The caller is blocked in the new wait w, and control goes back to whoever resumed it. */
  ghost predicate Stops(s: State, t: State, w: Item) {
    && |s.call| > 1 && t.call == s.call[..|s.call| - 1] && t.status == s.status[Running(s) := Blocked(w)]
    && w !in s.started && t.started == s.started + {w} && t.log == s.log
    && t.q.active == s.q.active && t.q.timeout == s.q.timeout
  }

  /** A poll is refused exactly when its timeout is negative or reaches beyond the 86400 ticks of the
      wheel, measured from the time the wheel was last emptied; it never fails for an early clock. */
  lemma PollRefusedWhen(s: State, poll: Item, fds: seq<Item>, timeout: int, at: int)
    requires Inv(s) && Enabled(s, CallPoll(poll, fds, timeout, at))
    ensures var start := StartFor(s.q.wheel, at);
            var t := Next(s, CallPoll(poll, fds, timeout, at));
            && (t.started == s.started <==> timeout < 0 || at + timeout - start >= 86400)
            && (t.started == s.started ==> GoesOn(s, t, start))
            && (t.started != s.started ==> Stops(s, t, poll))
  {
    hide PollEnter, QInv, IsNewPoll;
    PollEnterStart(s.q, Running(s), poll, fds, timeout, at);
    if Accepts(s.q.wheel, at + timeout, at) {
      PollEnters(s, poll, fds, timeout, at);
    }
  }

  /** What an accepted poll leaves: its timer on the wheel under call time plus timeout, and new items. */
  lemma PollEnters(s: State, poll: Item, fds: seq<Item>, timeout: int, at: int)
    requires Inv(s) && Enabled(s, CallPoll(poll, fds, timeout, at))
    requires timeout >= 0 && at + timeout - StartFor(s.q.wheel, at) < 86400
    ensures var t := Next(s, CallPoll(poll, fds, timeout, at)).q;
            && t.wheel == Wheel(StartFor(s.q.wheel, at), s.q.wheel.held + [Entry(poll, at + timeout)])
            && t.active == s.q.active && t.timeout == s.q.timeout && t.cvs == s.q.cvs
            && IsNewPoll(s.q.ev, t.ev, Running(s), poll, fds, at + timeout)
  {
    PollMayEnter(s, poll, fds, timeout, at);
    hide Inv, FreshItems, PollEnter, Lists, Accepts, IsNewPoll;
    PollEnterIs(s.q, Running(s), poll, fds, timeout, at);
  }

  lemma PollMayEnter(s: State, poll: Item, fds: seq<Item>, timeout: int, at: int)
    requires Inv(s) && Enabled(s, CallPoll(poll, fds, timeout, at))
    requires timeout >= 0 && at + timeout - StartFor(s.q.wheel, at) < 86400
    ensures Lists(s.q) && FreshItems(s.q, poll, fds) && Accepts(s.q.wheel, at + timeout, at)
  {
    hide Control, OnceEach, Quiet, Blocks, QInv, Lists, InWindow, Distinct, FreshItems, Known;
    QInvLists(s.q, s.Now, s.batch);
    PollFresh(s, poll, fds, at + timeout);
  }

  /** The items of a poll: its timer, and one for each descriptor, none of which has fired. */
  ghost predicate IsNewPoll(ev: map<Item, Event>, ev': map<Item, Event>, co: nat, poll: Item, fds: seq<Item>, expire: int) {
    && ev'.Keys == ev.Keys + {poll} + (set x | x in fds)
    && ev'[poll] == Poll(co, expire, false, false, 0, fds)
    && (forall x :: x in fds ==> ev'[x] == PollFd(co, 0, false, poll))
    && (forall x :: x in ev ==> ev'[x] == ev[x])
  }

  lemma NewPollIs(ev: map<Item, Event>, co: nat, poll: Item, fds: seq<Item>, expire: int)
    requires poll !in fds && poll !in ev && forall x :: x in fds ==> x !in ev
    ensures IsNewPoll(ev, ev + PollObjects(co, poll, fds, expire), co, poll, fds, expire)
  {
  }

  lemma PollEnterIs(q: Queues, co: nat, poll: Item, fds: seq<Item>, timeout: int, at: int)
    requires Lists(q) && FreshItems(q, poll, fds) && Accepts(q.wheel, at + timeout, at)
    ensures var t := PollEnter(q, co, poll, fds, timeout, at);
            && t.wheel == Wheel(StartFor(q.wheel, at), q.wheel.held + [Entry(poll, at + timeout)])
            && t.active == q.active && t.timeout == q.timeout && t.cvs == q.cvs
            && IsNewPoll(q.ev, t.ev, co, poll, fds, at + timeout)
  {
    NewIsOff(q, poll);
    NewPollIs(q.ev, co, poll, fds, at + timeout);
    hide Lists, Distinct, IsNewPoll;
  }

  lemma NewIsOff(q: Queues, x: Item)
    requires Lists(q) && x !in q.ev
    ensures !Linked(q, x)
  {
  }

  /** A condition wait without a timeout is always started. One with a timeout is refused exactly when
      the timeout reaches beyond the 86400 ticks of the wheel. */
  lemma WaitRefusedWhen(s: State, item: Item, cv: Cv, timeout: int, at: int)
    requires Inv(s) && Enabled(s, CallWait(item, cv, timeout, at))
    ensures var start := StartFor(s.q.wheel, at);
            var t := Next(s, CallWait(item, cv, timeout, at));
            && (t.started == s.started <==> timeout > 0 && at + timeout - start >= 86400)
            && (t.started == s.started ==> GoesOn(s, t, start))
            && (t.started != s.started ==>
                  && Stops(s, t, item)
                  && t.q.cvs == s.q.cvs[cv := Waiters(s.q, cv) + [item]]
                  && t.q.ev == s.q.ev[item := Event.Cv(Running(s), if timeout > 0 then at + timeout else 0, false)]
                  && t.q.wheel == if timeout > 0 then Wheel(start, s.q.wheel.held + [Entry(item, at + timeout)])
                                  else s.q.wheel)
  {
    hide Control, OnceEach, Quiet, Blocks, QInv, Lists, InWindow, Distinct;
    QInvLists(s.q, s.Now, s.batch);
    ItemFresh(s.q.ev, s.batch, s.started, s.seen, item);
    NewIsOff(s.q, item);
  }

  /** The hook layer turns an infinite poll into a timeout of INT32_MAX, which is always refused:
      the call returns -1 at once instead of waiting. */
  lemma InfinitePollIsRefused(s: State, poll: Item, fds: seq<Item>, at: int)
    requires Inv(s) && Enabled(s, CallPoll(poll, fds, 0x7fff_ffff, at))
    ensures Next(s, CallPoll(poll, fds, 0x7fff_ffff, at)).started == s.started
  {
    PollRefusedWhen(s, poll, fds, 0x7fff_ffff, at);
  }

  // ---------- control ----------

  /** A coroutine that yields gives control back to whoever resumed it, and can be resumed again. */
  lemma YieldUndoesResume(s: State, co: nat)
    requires Inv(s) && Enabled(s, Resume(co))
    ensures Enabled(Next(s, Resume(co)), Yield)
    ensures var t := Next(Next(s, Resume(co)), Yield);
            t.call == s.call && Enabled(t, Resume(co)) && t.q == s.q && t.log == s.log && t.started == s.started
  {
    hide QInv, Quiet, OnceEach, Known, Blocks;
  }

  lemma EndedStays(s: State, a: Action, co: nat)
    requires Inv(s) && Enabled(s, a) && StatusOf(s, co).Ended?
    ensures StatusOf(Next(s, a), co).Ended?
  {
    hide QInv, Quiet, OnceEach, Known, Blocks;
    assert Running(s) in s.call;
    assert co in s.status;
  }

  lemma EndedOffCall(s: State, co: nat)
    requires Inv(s) && StatusOf(s, co).Ended?
    ensures co !in s.call
  {
    hide QInv, Quiet, OnceEach, Known, Blocks;
  }

  lemma {:induction false} EndedForGood(s: State, run: seq<Action>, co: nat)
    requires Inv(s) && Valid(s, run) && StatusOf(s, co).Ended?
    ensures StatusOf(After(s, run), co).Ended? && co !in After(s, run).call
    decreases |run|
  {
    EndedOffCall(s, co);
    hide Inv, Enabled, Next;
    if run != [] {
      StepKeeps(s, run[0]);
      EndedStays(s, run[0], co);
      EndedForGood(Next(s, run[0]), run[1..], co);
    }
  }

  /** A coroutine whose function has returned never gets control again. */
  lemma FinishedNeverRuns(s: State, run: seq<Action>)
    requires Inv(s) && Enabled(s, Finish) && Valid(Next(s, Finish), run)
    ensures Running(s) !in After(Next(s, Finish), run).call
  {
    StepKeeps(s, Finish);
    assert StatusOf(Next(s, Finish), Running(s)).Ended?;
    hide Inv, Enabled, Next;
    EndedForGood(Next(s, Finish), run, Running(s));
  }

  // ---------- resuming a waiter behind the loop's back ----------

  /** Nothing stops user code from calling Co_resume on a coroutine that is blocked in a wait; it then
      finishes the wait without its item having been popped from the active list. What it frees is
      off every list exactly if, for a poll, none of its descriptors has fired yet, and, for a
      condition wait, its item is on no list. */
  lemma DirectResumeIsSafeWhen(s: State, w: Item)
    requires Inv(s) && IsWait(s.q, w)
    ensures GroupOffLists(Leave(s.q, w), Group(s.q.ev, w)) <==>
            if s.q.ev[w].Poll? then !s.q.ev[w].IsHandle else !Linked(s.q, w)
  {
    var q := s.q;
    if q.ev[w].Poll? {
      DirectPoll(q, s.Now, s.batch, w);
    } else {
      DirectWait(q, s.Now, s.batch, w);
    }
  }

  lemma DirectPoll(q: Queues, now: int, done: seq<Item>, w: Item)
    requires QInv(q, now, done) && w in q.ev && q.ev[w].Poll?
    ensures GroupOffLists(Leave(q, w), Group(q.ev, w)) <==> !q.ev[w].IsHandle
  {
    hide QInv, GroupOffLists, Leave;
    if q.ev[w].IsHandle {
      DirectHandled(q, now, done, w);
    } else {
      DirectUnhandled(q, now, done, w);
    }
  }

  lemma DirectHandled(q: Queues, now: int, done: seq<Item>, w: Item)
    requires QInv(q, now, done) && w in q.ev && q.ev[w].Poll? && q.ev[w].IsHandle
    ensures !GroupOffLists(Leave(q, w), Group(q.ev, w))
  {
    hide QInv;
    HandledIsActive(q, now, done, w);
    var x :| x in q.ev[w].WillJoinEpoll && x in q.active && x != w;
    WithoutMembers(q.active, w);
    assert x in Leave(q, w).active by {
      hide Without, Group, OffLists;
    }
    hide Leave;
    assert x in Group(q.ev, w) && !OffLists(Leave(q, w), x);
  }

  lemma HandledIsActive(q: Queues, now: int, done: seq<Item>, w: Item)
    requires QInv(q, now, done) && w in q.ev && q.ev[w].Poll? && q.ev[w].IsHandle
    ensures exists x :: x in q.ev[w].WillJoinEpoll && x in q.active && x != w
    ensures Lists(q)
  {
    assert PollPlaced(q, w, done) && PollShape(q.ev, w);
    hide Distinct, InWindow, OnePending, Polls, Signalled, Waits, Shapes, Timers, ActiveDue;
  }

  lemma DirectUnhandled(q: Queues, now: int, done: seq<Item>, w: Item)
    requires QInv(q, now, done) && w in q.ev && q.ev[w].Poll? && !q.ev[w].IsHandle
    ensures GroupOffLists(Leave(q, w), Group(q.ev, w))
  {
    hide Distinct, InWindow, OnePending, Polls, Signalled, Shapes, Waits;
    var r := Leave(q, w);
    UnlinkFacts(q, w);
    forall y | y in Group(q.ev, w) ensures OffLists(r, y) && y !in r.ev {
      DirectFd(q, now, done, w, y);
    }
  }

  /** Before its first event, only the timer of a poll is on a list. */
  lemma DirectFd(q: Queues, now: int, done: seq<Item>, w: Item, y: Item)
    requires QInv(q, now, done) && w in q.ev && q.ev[w].Poll? && !q.ev[w].IsHandle && y in Group(q.ev, w)
    ensures y == w || !Linked(q, y)
    ensures !Queued(q, y) && y in q.ev
  {
    assert PollShape(q.ev, w);
    hide Distinct, InWindow, OnePending, Polls, Signalled;
    if y != w && InWheel(q, y) {
      HeldEvent(q, y);
    }
  }

  lemma DirectWait(q: Queues, now: int, done: seq<Item>, w: Item)
    requires QInv(q, now, done) && w in q.ev && q.ev[w].Cv?
    ensures GroupOffLists(Leave(q, w), Group(q.ev, w)) <==> !Linked(q, w)
  {
    var r := Leave(q, w);
    if Queued(r, w) {
      var cv :| cv in r.cvs && w in r.cvs[cv];
      WithoutMembers(q.cvs[cv], w);
    }
    assert w in Group(q.ev, w);
  }

  /** A run that gets there: a timed waiter, resumed directly, leaves its freed item on the wheel. */
  lemma DirectResumeLeavesTimer(x: Item, cv: Cv)
    ensures var run := [Resume(1), CallWait(x, cv, 10, 5)];
            var s := After(Initial(), run);
            && Valid(Initial(), run) && IsWait(s.q, x) && StatusOf(s, 1) == Blocked(x)
            && InWheel(Leave(s.q, x), x) && x !in Leave(s.q, x).ev
  {
    var a, b := Resume(1), CallWait(x, cv, 10, 5);
    var s0 := Initial();
    var s1 := Next(s0, a);
    assert Enabled(s0, a) && Enabled(s1, b);
    assert Valid(Next(s1, b), []);
    assert [a, b][1..] == [b] && [b][1..] == [];
    assert Valid(s1, [b]);
    assert After(s1, [b]) == Next(s1, b);
    var q := Next(s1, b).q;
    assert q.wheel.held == [Entry(x, 15)];
    assert Items(q.wheel.held)[0] == x;
  }
}
