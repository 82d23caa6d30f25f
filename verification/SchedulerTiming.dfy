/** When waits end: nothing active survives a drain, and a sleep ends in the first turn that is late
    enough. */
module SchedulerTiming {
  import opened Sequences
  import opened Events
  import opened WheelSpec
  import opened EventQueues
  import opened QueueInvariant
  import opened Scheduler
  import opened SchedulerInvariant
  import opened SchedulerTheorems

  // ---------- what a step does to one item ----------

  /** The items that are not part of x's wait keep their event and their place. */
  ghost predicate Untouched(q: Queues, r: Queues, x: Item) {
    && x in q.ev && x in r.ev && r.ev[x] == q.ev[x]
    && (InWheel(q, x) ==> InWheel(r, x))
    && (x in q.active ==> x in r.active)
  }

  lemma SignalSpares(q: Queues, cv: Cv, now: int, done: seq<Item>, x: Item)
    requires QInv(q, now, done) && x in q.ev && !q.ev[x].Cv?
    ensures Untouched(q, Signal(q, cv), x)
  {
    if Waiters(q, cv) != [] {
      var h := Waiters(q, cv)[0];
      assert h in q.cvs[cv] && q.ev[h].Cv?;
      hide QInv;
      QInvLists(q, now, done);
      ActivateFacts(q.(cvs := q.cvs[cv := Waiters(q, cv)[1..]]), h);
    }
  }

  lemma OtherCvs(q: Queues, cvs: map<Cv, seq<Item>>)
    requires Lists(q)
    ensures Lists(q.(cvs := cvs))
  {
    hide Distinct;
  }

  /** A signalled waiter that was already active stays active. */
  lemma SignalKeepsActive(q: Queues, cv: Cv, now: int, done: seq<Item>, x: Item)
    requires QInv(q, now, done) && x in q.active
    ensures x in Signal(q, cv).active
  {
    if Waiters(q, cv) != [] {
      var h := Waiters(q, cv)[0];
      assert h in q.cvs[cv] && h in q.ev;
      hide QInv, Lists, Shapes, InWindow, Distinct;
      QInvLists(q, now, done);
      assert Lists(q.(cvs := q.cvs[cv := Waiters(q, cv)[1..]])) by {
        OtherCvs(q, q.cvs[cv := Waiters(q, cv)[1..]]);
      }
      ActivateFacts(q.(cvs := q.cvs[cv := Waiters(q, cv)[1..]]), h);
    }
  }

  lemma SignalFrame(q: Queues, cv: Cv, now: int, done: seq<Item>, x: Item)
    requires QInv(q, now, done) && x in q.ev
    ensures Signal(q, cv).ev == q.ev
    ensures Waiters(q, cv) != [] ==> |Waiters(Signal(q, cv), cv)| < |Waiters(q, cv)|
    ensures x in q.active ==> x in Signal(q, cv).active
    ensures InWheel(q, x) && !q.ev[x].Cv? ==> InWheel(Signal(q, cv), x)
  {
    assert Signal(q, cv).ev == q.ev;
    assert Waiters(q, cv) != [] ==> Waiters(Signal(q, cv), cv) == Waiters(q, cv)[1..];
    hide QInv, Signal, InWheel;
    if x in q.active {
      SignalKeepsActive(q, cv, now, done, x);
    }
    if !q.ev[x].Cv? {
      SignalSpares(q, cv, now, done, x);
    }
  }

  lemma {:induction false} BroadcastSpares(q: Queues, cv: Cv, now: int, done: seq<Item>, x: Item)
    requires QInv(q, now, done) && x in q.ev
    ensures Broadcast(q, cv).ev == q.ev
    ensures x in q.active ==> x in Broadcast(q, cv).active
    ensures InWheel(q, x) && !q.ev[x].Cv? ==> InWheel(Broadcast(q, cv), x)
    decreases |Waiters(q, cv)|
  {
    hide QInv, InWheel, Signal, Waiters;
    if Waiters(q, cv) != [] {
      SignalKeeps(q, cv, now, done);
      SignalFrame(q, cv, now, done, x);
      BroadcastSpares(Signal(q, cv), cv, now, done, x);
    }
  }

  lemma PollSpares(q: Queues, co: nat, poll: Item, fds: seq<Item>, timeout: int, at: int, x: Item)
    requires Lists(q) && InWindow(q.wheel) && at > 0 && FreshItems(q, poll, fds) && q.wheel.start <= at
    requires x in q.ev
    ensures Untouched(q, PollEnter(q, co, poll, fds, timeout, at), x)
  {
    hide Lists, InWindow, PollEnter;
    PollEnterStart(q, co, poll, fds, timeout, at);
    if Accepts(q.wheel, at + timeout, at) {
      PollEnterFacts(q, co, poll, fds, timeout, at);
    }
  }

  lemma WaitSpares(q: Queues, co: nat, item: Item, cv: Cv, timeout: int, at: int, x: Item)
    requires Lists(q) && InWindow(q.wheel) && at > 0 && item !in q.ev && q.wheel.start <= at
    requires x in q.ev
    ensures Untouched(q, WaitEnter(q, co, item, cv, timeout, at), x)
  {
    hide Lists, InWindow, WaitEnter;
    WaitEnterStart(q, co, item, cv, timeout, at);
    if WaitAccepted(q, timeout, at) {
      WaitEnterFacts(q, co, item, cv, timeout, at);
    }
  }

  /** A wake-up touches only the wait it ends. */
  lemma WakeSpares(q: Queues, now: int, done: seq<Item>, x: Item)
    requires QInv(q, now, done) && q.active != [] && IsWait(q, Owner(q.ev, q.active[0]))
    requires x in q.ev && Pending(q, x) && x != q.active[0]
    ensures Owner(q.ev, x) != Owner(q.ev, q.active[0])
    ensures Untouched(q, Leave(PopActive(q), Owner(q.ev, q.active[0])), x)
  {
    var w := Owner(q.ev, q.active[0]);
    SoleHead(q, now, done);
    QInvLists(q, now, done);
    hide QInv, Lists, InWindow, Leave, Shapes;
    EndedFacts(q, w);
    NotInGroup(q.ev, w, x);
  }

  // ---------- nothing active survives a drain ----------

  /** x is waiting in the active list to end the wait w. */
  ghost predicate Serving(s: State, x: Item, w: Item) {
    s.draining && x in s.q.active && x in s.q.ev && Owner(s.q.ev, x) == w
  }

  lemma GoneStays(s: State, a: Action, w: Item)
    requires Inv(s) && Enabled(s, a) && w in s.seen && w !in s.q.ev
    ensures w in Next(s, a).seen && w !in Next(s, a).q.ev
  {
    hide QInv, Control, Blocks, OnceEach, Quiet, Distinct, InWindow, Broadcast, CollectTimeouts, PrepareAll, Items, Drop, Accepts;
    match a
    case CallBroadcast(cv) => BroadcastEv(s.q, cv);
    case Turn(events, at) => TurnQueues(s, events, at);
    case Drain =>
      if s.q.active != [] {
        HeadCanWake(s);
        LeaveEv(s.q, Owner(s.q.ev, s.q.active[0]));
      }
    case _ =>
  }

  lemma {:induction false} BroadcastEv(q: Queues, cv: Cv)
    ensures Broadcast(q, cv).ev == q.ev
    decreases |Waiters(q, cv)|
  {
    if Waiters(q, cv) != [] {
      BroadcastEv(Signal(q, cv), cv);
    }
  }

  lemma StepServes(s: State, a: Action, x: Item, w: Item)
    requires Inv(s) && Enabled(s, a) && Serving(s, x, w)
    ensures Serving(Next(s, a), x, w) || (w !in Next(s, a).q.ev && a.Drain? && s.q.active[0] == x)
  {
    hide QInv, Control, Blocks, OnceEach, Quiet, Known, Distinct, InWindow, Lists, Shapes;
    QInvLists(s.q, s.Now, s.batch);
    match a
    case CallPoll(poll, fds, timeout, at) =>
      PollFresh(s, poll, fds, at + timeout);
      PollSpares(s.q, Running(s), poll, fds, timeout, at, x);
    case CallWait(item, cv, timeout, at) =>
      ItemFresh(s.q.ev, s.batch, s.started, s.seen, item);
      WaitSpares(s.q, Running(s), item, cv, timeout, at, x);
    case CallSignal(cv) => SignalKeepsActive(s.q, cv, s.Now, s.batch, x);
    case CallBroadcast(cv) => BroadcastSpares(s.q, cv, s.Now, s.batch, x);
    case Drain =>
      HeadCanWake(s);
      LeaveEv(s.q, Owner(s.q.ev, s.q.active[0]));
      if x != s.q.active[0] {
        WakeSpares(s.q, s.Now, s.batch, x);
      }
    case _ =>
  }

  /** Whatever is active when a drain is under way has been woken by the time the loop is next
      outside a drain, whatever the resumed coroutines do meanwhile. */
  lemma {:induction false} DrainServes(s: State, run: seq<Action>, x: Item, w: Item)
    requires Inv(s) && Valid(s, run) && !After(s, run).draining
    requires Serving(s, x, w) && w in s.started
    ensures w in Returned(After(s, run).log)
    decreases |run|
  {
    hide Enabled, Next, Inv, Returned;
    assert run != [] by { ServingDrains(s, x, w); }
    StepKeeps(s, run[0]);
    StepServes(s, run[0], x, w);
    var t := Next(s, run[0]);
    StartedStays(s, run[0], w);
    CallNotEmpty(s);
    if Serving(t, x, w) {
      DrainServes(t, run[1..], x, w);
    } else {
      GoneForGood(t, run[1..], w);
    }
  }

  lemma ServingDrains(s: State, x: Item, w: Item)
    requires Serving(s, x, w)
    ensures s.draining
  {
  }

  lemma CallNotEmpty(s: State)
    requires Inv(s)
    ensures s.call != []
  {
    hide QInv, Blocks, Quiet, OnceEach, Known;
  }

  lemma StartedStays(s: State, a: Action, w: Item)
    requires Inv(s) && Enabled(s, a) && w in s.started
    ensures w in Next(s, a).started && w in s.seen
  {
    hide QInv, Control, Blocks, Quiet, OnceEach;
  }

  lemma {:induction false} GoneForGood(s: State, run: seq<Action>, w: Item)
    requires Inv(s) && Valid(s, run) && w in s.started && w !in s.q.ev
    ensures w in Returned(After(s, run).log)
    decreases |run|
  {
    if run != [] {
      StepKeeps(s, run[0]);
      StartedStays(s, run[0], w);
      GoneStays(s, run[0], w);
      hide Inv, Enabled, Next;
      GoneForGood(Next(s, run[0]), run[1..], w);
    }
  }

  // ---------- sleeping ----------

  /** w is a poll without descriptors whose timer is running. */
  ghost predicate Sleeping(s: State, w: Item) {
    && w in s.q.ev && s.q.ev[w].Poll? && s.q.ev[w].WillJoinEpoll == []
    && InWheel(s.q, w)
  }

  lemma {:induction false} PrepareAllSpares(q: Queues, batch: seq<Item>, now: int, w: Item)
    requires QInv(q, now, []) && Unlabelled(q.ev) && AllLiveFds(q, batch)
    requires w in q.ev && q.ev[w].Poll? && q.ev[w].WillJoinEpoll == [] && InWheel(q, w)
    ensures InWheel(PrepareAll(q, batch), w)
  {
    if batch != [] {
      var done, x := batch[..|batch| - 1], batch[|batch| - 1];
      assert AllLiveFds(q, done);
      PrepareAllKeeps(q, done, now);
      PrepareAllSpares(q, done, now, w);
      var r := PrepareAll(q, done);
      assert IsLiveFd(q, x) && IsLiveFd(r, x) && r.ev[w].WillJoinEpoll == [];
      CoPrepareSpares(r, x, now, done, w);
    }
  }

  lemma CoPrepareSpares(q: Queues, x: Item, now: int, done: seq<Item>, w: Item)
    requires QInv(q, now, done) && IsLiveFd(q, x)
    requires w in q.ev && q.ev[w].Poll? && q.ev[w].WillJoinEpoll == [] && InWheel(q, w)
    ensures InWheel(CoPrepare(q, x), w)
  {
    assert FdShape(q.ev, x);
    CoPrepareFacts(q, x, now);
  }

  /** A turn whose clock is still early leaves the sleeper on the wheel; the first that is not moves
      it to the active list. */
  lemma TurnAndSleeper(s: State, events: seq<Item>, at: int, w: Item)
    requires Inv(s) && Enabled(s, Turn(events, at)) && Sleeping(s, w)
    ensures var t := Next(s, Turn(events, at));
            if at < s.q.ev[w].ExpireTime
            then Sleeping(t, w) && t.q.ev[w].ExpireTime == s.q.ev[w].ExpireTime
            else Serving(t, w, w)
  {
    PrepareAllKeeps(s.q, events, s.Now);
    PrepareAllSpares(s.q, events, s.Now, w);
    PrepareAllStart(s.q, events);
    var q := PrepareAll(s.q, events);
    assert q.ev[w].Poll? && q.ev[w].ExpireTime == s.q.ev[w].ExpireTime && q.ev[w].WillJoinEpoll == [];
    hide QInv, SameItems, PrepareAll, Control, Blocks, OnceEach, Known, Quiet;
    QInvLists(q, s.Now, events);
    CollectedOrKept(q, s.Now, events, at, w);
  }

  lemma CollectedOrKept(q: Queues, now: int, done: seq<Item>, at: int, w: Item)
    requires QInv(q, now, done) && 0 < at && q.wheel.start <= at && InWheel(q, w) && w in q.ev
    ensures var r := CollectTimeouts(q, at);
            && w in r.ev && r.ev[w] == (if w in TakenOut(q.wheel, at) then q.ev[w].(IsTimeout := true) else q.ev[w])
            && if at < q.ev[w].ExpireTime then InWheel(r, w) && w !in TakenOut(q.wheel, at) else w in r.active
  {
    HeldEvent(q, w);
    assert q.wheel.held != [] && q.wheel.start > 0;
    ExpiredOne(q, w, at);
  }

  lemma StepSleeps(s: State, a: Action, w: Item)
    requires Inv(s) && Enabled(s, a) && Sleeping(s, w)
    requires a.Turn? ==> a.at < s.q.ev[w].ExpireTime
    ensures Sleeping(Next(s, a), w) && Next(s, a).q.ev[w].ExpireTime == s.q.ev[w].ExpireTime
  {
    hide QInv, Control, Blocks, OnceEach, Quiet, Known, Distinct, InWindow, Lists, Shapes;
    QInvLists(s.q, s.Now, s.batch);
    match a
    case CallPoll(poll, fds, timeout, at) =>
      PollFresh(s, poll, fds, at + timeout);
      PollSpares(s.q, Running(s), poll, fds, timeout, at, w);
    case CallWait(item, cv, timeout, at) =>
      ItemFresh(s.q.ev, s.batch, s.started, s.seen, item);
      WaitSpares(s.q, Running(s), item, cv, timeout, at, w);
    case CallSignal(cv) => SignalSpares(s.q, cv, s.Now, s.batch, w);
    case CallBroadcast(cv) => BroadcastSpares(s.q, cv, s.Now, s.batch, w);
    case Turn(events, at) => TurnAndSleeper(s, events, at, w);
    case Drain =>
      if s.q.active != [] {
        HeadCanWake(s);
        NotBoth(s.q, w);
        WakeSpares(s.q, s.Now, s.batch, w);
      }
    case _ =>
  }

  lemma NotBoth(q: Queues, w: Item)
    requires Lists(q) && q.active != [] && InWheel(q, w)
    ensures w != q.active[0]
  {
    assert q.active[0] in q.active;
  }

  /** All turns in the run have a clock before `due`. */
  ghost predicate Early(run: seq<Action>, due: int) {
    forall i :: 0 <= i < |run| && run[i].Turn? ==> run[i].at < due
  }

  /** In no turn before its expiry is a sleeper woken, whatever others add, remove or signal. */
  lemma {:induction false} SleepsWhileEarly(s: State, run: seq<Action>, w: Item)
    requires Inv(s) && Valid(s, run) && Sleeping(s, w) && Early(run, s.q.ev[w].ExpireTime)
    ensures Sleeping(After(s, run), w) && After(s, run).q.ev[w].ExpireTime == s.q.ev[w].ExpireTime
    decreases |run|
  {
    if run != [] {
      StepKeeps(s, run[0]);
      StepSleeps(s, run[0], w);
      assert Early(run[1..], s.q.ev[w].ExpireTime) by {
        forall i | 0 <= i < |run[1..]| && run[1..][i].Turn? ensures run[1..][i].at < s.q.ev[w].ExpireTime {
          assert run[1..][i] == run[i + 1];
        }
      }
      hide Inv, Enabled, Next, Early;
      SleepsWhileEarly(Next(s, run[0]), run[1..], w);
    }
  }

  ghost predicate LogExtends(s: State, t: State) {
    |s.log| <= |t.log| && t.log[..|s.log|] == s.log
  }

  lemma StepLogs(s: State, a: Action)
    requires Inv(s) && Enabled(s, a)
    ensures LogExtends(s, Next(s, a))
  {
    hide QInv, Control, Blocks, OnceEach, Quiet, Known, Leave, PollEnter, WaitEnter, PrepareAll, CollectTimeouts;
  }

  lemma {:induction false} LogGrows(s: State, run: seq<Action>)
    requires Inv(s) && Valid(s, run)
    ensures LogExtends(s, After(s, run))
    decreases |run|
  {
    if run != [] {
      StepKeeps(s, run[0]);
      StepLogs(s, run[0]);
      hide Inv, Enabled, Next;
      LogGrows(Next(s, run[0]), run[1..]);
    }
  }

  /** The timer of a sleeping poll, once active, is served with the result 0. */
  lemma {:induction false} DrainServesSleeper(s: State, run: seq<Action>, w: Item)
    requires Inv(s) && Valid(s, run) && !After(s, run).draining
    requires Serving(s, w, w) && w in s.q.ev && s.q.ev[w].Poll?
    ensures Wake(w, 0) in After(s, run).log
    decreases |run|
  {
    assert run != [];
    StepKeeps(s, run[0]);
    StepServes(s, run[0], w, w);
    var t := Next(s, run[0]);
    if Serving(t, w, w) {
      StepKeepsKind(s, run[0], w);
      hide Inv, Enabled, Next;
      DrainServesSleeper(t, run[1..], w);
    } else {
      DrainWakesOne(s);
      assert t.log[|t.log| - 1] == Wake(w, 0);
      LogGrows(t, run[1..]);
      var u := After(t, run[1..]);
      assert u.log[|t.log| - 1] == u.log[..|t.log|][|t.log| - 1];
    }
  }

  lemma StepKeepsKind(s: State, a: Action, w: Item)
    requires Inv(s) && Enabled(s, a) && w in s.q.ev && s.q.ev[w].Poll? && w in Next(s, a).q.ev && s.draining
    requires w in s.q.active
    ensures Next(s, a).q.ev[w].Poll?
  {
    hide QInv, Control, Blocks, OnceEach, Quiet, Known, Distinct, InWindow, Lists, Shapes;
    QInvLists(s.q, s.Now, s.batch);
    match a
    case CallPoll(poll, fds, timeout, at) =>
      PollFresh(s, poll, fds, at + timeout);
      PollSpares(s.q, Running(s), poll, fds, timeout, at, w);
    case CallWait(item, cv, timeout, at) =>
      ItemFresh(s.q.ev, s.batch, s.started, s.seen, item);
      WaitSpares(s.q, Running(s), item, cv, timeout, at, w);
    case CallBroadcast(cv) => BroadcastEv(s.q, cv);
    case Drain =>
      HeadCanWake(s);
      LeaveEv(s.q, Owner(s.q.ev, s.q.active[0]));
    case _ =>
  }

  lemma {:induction false} AfterSplit(s: State, a: seq<Action>, b: seq<Action>)
    requires Inv(s) && Valid(s, a + b)
    ensures Valid(s, a) && Valid(After(s, a), b) && After(s, a + b) == After(After(s, a), b)
    decreases |a|
  {
    if a == [] {
      assert a + b == b;
    } else {
      assert (a + b)[1..] == a[1..] + b;
      StepKeeps(s, a[0]);
      hide Enabled, Next, QInv, Control, Blocks, OnceEach, Quiet, Known;
      AfterSplit(Next(s, a[0]), a[1..], b);
    }
  }

  lemma CallSleeps(s: State, poll: Item, timeout: int, at: int)
    requires Inv(s) && Enabled(s, CallPoll(poll, [], timeout, at)) && Accepts(s.q.wheel, at + timeout, at)
    ensures var t := Next(s, CallPoll(poll, [], timeout, at));
            Sleeping(t, poll) && t.q.ev[poll].ExpireTime == at + timeout
  {
    hide QInv, Control, Blocks, OnceEach, Quiet, Known, InWindow, Accepts;
    QInvLists(s.q, s.Now, s.batch);
    PollFresh(s, poll, [], at + timeout);
    hide Lists, Shapes, PollEnter;
    PollEnterFacts(s.q, Running(s), poll, [], timeout, at);
  }

  /** End to end: a coroutine that polls no descriptors for an accepted timeout stays blocked through
      every turn whose clock is before call time plus timeout, and is resumed with result 0 in the
      first turn whose clock is not. `rest` is the remainder of that turn and anything after it. */
  lemma SleepEndsOnTime(s: State, poll: Item, timeout: int, at: int,
                        early: seq<Action>, events: seq<Item>, now: int, rest: seq<Action>)
    requires Inv(s) && Enabled(s, CallPoll(poll, [], timeout, at)) && Accepts(s.q.wheel, at + timeout, at)
    requires var t := Next(s, CallPoll(poll, [], timeout, at));
             Valid(t, early + ([Turn(events, now)] + rest)) && !After(t, early + ([Turn(events, now)] + rest)).draining
    requires Early(early, at + timeout) && at + timeout <= now
    ensures var t := Next(s, CallPoll(poll, [], timeout, at));
            && Sleeping(After(t, early), poll)
            && Wake(poll, 0) in After(t, early + ([Turn(events, now)] + rest)).log
  {
    hide QInv, Control, Blocks, OnceEach, Quiet, Known, Distinct, Early;
    StepKeeps(s, CallPoll(poll, [], timeout, at));
    CallSleeps(s, poll, timeout, at);
    var t := Next(s, CallPoll(poll, [], timeout, at));
    AfterSplit(t, early, [Turn(events, now)] + rest);
    SleepsWhileEarly(t, early, poll);
    var u := After(t, early);
    RunKeeps(t, early);
    TurnAndSleeper(u, events, now, poll);
    var v := Next(u, Turn(events, now));
    assert ([Turn(events, now)] + rest)[1..] == rest;
    StepKeeps(u, Turn(events, now));
    TurnKeepsKind(u, events, now, poll);
    DrainServesSleeper(v, rest, poll);
  }

  lemma TurnKeepsKind(s: State, events: seq<Item>, at: int, w: Item)
    requires Inv(s) && Enabled(s, Turn(events, at)) && w in s.q.ev && s.q.ev[w].Poll?
    ensures var t := Next(s, Turn(events, at)); w in t.q.ev && t.q.ev[w].Poll?
  {
    PrepareAllStart(s.q, events);
    PrepareAllKeeps(s.q, events, s.Now);
    assert SameItems(s.q.ev, PrepareAll(s.q, events).ev);
    hide QInv, Control, Blocks, OnceEach, Quiet, Known, PrepareAll, TakenOut, TakeOutTimeout, Begin;
  }

  // ---------- signals ----------

  /** The first waiter of a condition variable is active after a signal, and no longer queued. */
  lemma SignalActivates(s: State, cv: Cv)
    requires Inv(s) && Waiters(s.q, cv) != []
    ensures var x := Waiters(s.q, cv)[0];
            var t := Next(s, CallSignal(cv));
            && x in s.q.ev && s.q.ev[x].Cv? && x in t.q.active && x in t.q.ev && Owner(t.q.ev, x) == x
            && !Queued(t.q, x) && Waiters(t.q, cv) == Waiters(s.q, cv)[1..]
  {
    hide Control, Blocks, OnceEach, Quiet, Known, QInv;
    QueueHead(s.q, cv, s.Now, s.batch);
    SignalledHead(s.q, cv, s.Now, s.batch);
  }

  lemma QueueHead(q: Queues, cv: Cv, now: int, done: seq<Item>)
    requires QInv(q, now, done) && Waiters(q, cv) != []
    ensures var x := Waiters(q, cv)[0]; x in q.ev && q.ev[x].Cv?
  {
    hide Lists, Shapes, Timers, OnePending, Polls, Signalled, ActiveDue, Distinct;
    assert Waiters(q, cv)[0] in q.cvs[cv];
  }

  lemma SignalledHead(q: Queues, cv: Cv, now: int, done: seq<Item>)
    requires QInv(q, now, done) && Waiters(q, cv) != [] && Waiters(q, cv)[0] in q.ev
    ensures var x := Waiters(q, cv)[0];
            x in Signal(q, cv).active && !Queued(Signal(q, cv), x)
  {
    hide Lists, Shapes, Timers, OnePending, Polls, Waits, Signalled, ActiveDue, InWindow;
    var x := Waiters(q, cv)[0];
    QInvLists(q, now, done);
    OtherCvs(q, q.cvs[cv := Waiters(q, cv)[1..]]);
    ActivateFacts(q.(cvs := q.cvs[cv := Waiters(q, cv)[1..]]), x);
    if Queued(Signal(q, cv), x) {
      StillQueued(q, cv, x);
    }
  }

  /** A waiter signalled between two turns is served by the next one. */
  lemma TurnServesActive(s: State, events: seq<Item>, at: int, x: Item)
    requires Inv(s) && Enabled(s, Turn(events, at)) && x in s.q.active && x in s.q.ev
    ensures Serving(Next(s, Turn(events, at)), x, x)
  {
    hide QInv, Control, Blocks, OnceEach, Known, Distinct, PrepareAll;
    assert s.q.ev[x].Cv?;
    PrepareAllKeepsActive(s.q, events, s.Now, x);
    PrepareAllKeeps(s.q, events, s.Now);
  }

  lemma {:induction false} PrepareAllKeepsActive(q: Queues, batch: seq<Item>, now: int, x: Item)
    requires QInv(q, now, []) && Unlabelled(q.ev) && AllLiveFds(q, batch)
    requires x in q.active && x in q.ev && q.ev[x].Cv?
    ensures x in PrepareAll(q, batch).active
  {
    if batch != [] {
      var done, y := batch[..|batch| - 1], batch[|batch| - 1];
      assert AllLiveFds(q, done);
      PrepareAllKeeps(q, done, now);
      PrepareAllKeepsActive(q, done, now, x);
      var r := PrepareAll(q, done);
      assert IsLiveFd(q, y) && IsLiveFd(r, y) && r.ev[x].Cv?;
      CoPrepareFacts(r, y, now);
    }
  }
}
