/** Every step of the scheduler keeps its invariant. */
module SchedulerInvariant {
  import opened Sequences
  import opened Events
  import opened WheelSpec
  import opened EventQueues
  import opened QueueInvariant
  import opened Scheduler

  // ---------- the call stack ----------

  lemma PushKeepsControl(call: seq<nat>, status: map<nat, Status>, co: nat)
    requires Control(call, status) && (co in status ==> !status[co].OnStack?)
    ensures Control(call + [co], status[co := OnStack])
  {
  }

  lemma PopKeepsControl(call: seq<nat>, status: map<nat, Status>, how: Status)
    requires Control(call, status) && |call| > 1 && !how.OnStack?
    ensures Control(call[..|call| - 1], status[call[|call| - 1] := how])
  {
    var r := call[|call| - 1];
    assert call == call[..|call| - 1] + [r];
  }

  lemma ResumeKeeps(s: State, co: nat)
    requires Inv(s) && Enabled(s, Resume(co))
    ensures Inv(Next(s, Resume(co)))
  {
    hide QInv, Quiet, OnceEach, Known;
    PushKeepsControl(s.call, s.status, co);
  }

  lemma SwitchOutKeeps(s: State, how: Status)
    requires Inv(s) && |s.call| > 1 && (how.Ready? || how.Ended?)
    ensures Inv(SwitchOut(s, how))
  {
    hide QInv, Quiet, OnceEach, Known;
    PopKeepsControl(s.call, s.status, how);
    assert Running(s) in s.call;
  }

  // ---------- signals ----------

  /** Outside a drain, what a signal activates is a condition waiter. */
  lemma SignalQuiet(q: Queues, cv: Cv, now: int, done: seq<Item>, x: Item)
    requires QInv(q, now, done) && x in Signal(q, cv).active && x !in q.active
    ensures x in q.ev && q.ev[x].Cv?
  {
    var w := Waiters(q, cv)[0];
    ActivateFacts(q.(cvs := q.cvs[cv := Waiters(q, cv)[1..]]), w);
    assert w in q.cvs[cv];
  }

  lemma SignalActive(q: Queues, cv: Cv, now: int, done: seq<Item>)
    requires QInv(q, now, done) && OnlyCv(q.active, q.ev)
    ensures OnlyCv(Signal(q, cv).active, q.ev)
  {
    forall x | x in Signal(q, cv).active && x in q.ev ensures q.ev[x].Cv? {
      if x !in q.active {
        SignalQuiet(q, cv, now, done, x);
      }
    }
  }

  lemma SignalStep(s: State, cv: Cv)
    requires Inv(s)
    ensures Inv(s.(q := Signal(s.q, cv)))
  {
    hide Distinct, QInv, Known, OnceEach, Control, OnlyCv, Unlabelled;
    SignalKeeps(s.q, cv, s.Now, s.batch);
    if !s.draining {
      SignalActive(s.q, cv, s.Now, s.batch);
    }
    assert Signal(s.q, cv).ev == s.q.ev;
  }

  lemma {:induction false} BroadcastIsSignals(s: State, cv: Cv)
    requires Inv(s)
    ensures Inv(s.(q := Broadcast(s.q, cv)))
    decreases |Waiters(s.q, cv)|
  {
    if Waiters(s.q, cv) != [] {
      SignalStep(s, cv);
      hide Inv;
      BroadcastIsSignals(s.(q := Signal(s.q, cv)), cv);
    }
  }

  // ---------- starting a wait ----------

  /** The coroutine `co` stops in the new wait w; `added` are its objects. */
  ghost predicate Started(s: State, t: State, added: map<Item, Event>, w: Item, co: nat) {
    && t.q.ev == s.q.ev + added && added.Keys !! s.q.ev.Keys
    && w in added && !added[w].PollFd? && added[w].ItemCo == co
    && (forall x :: x in added && x != w ==> added[x].PollFd?)
    && t.status == s.status[co := Blocked(w)]
    && t.started == s.started + {w} && t.log == s.log
  }

  lemma StartedBlocks(s: State, t: State, added: map<Item, Event>, w: Item, co: nat)
    requires Blocks(s.q, s.status) && Started(s, t, added, w, co) && !StatusOf(s, co).Blocked?
    ensures Blocks(t.q, t.status)
  {
    forall x | x in t.q.ev && IsWait(t.q, x)
      ensures t.q.ev[x].ItemCo in t.status && t.status[t.q.ev[x].ItemCo] == Blocked(x)
    {
      assert x == w || IsWait(s.q, x);
    }
    forall c | c in t.status && t.status[c].Blocked?
      ensures IsWait(t.q, t.status[c].on) && t.q.ev[t.status[c].on].ItemCo == c
    {
      assert c == co || IsWait(s.q, s.status[c].on);
    }
  }

  ghost predicate AllNew(added: map<Item, Event>, seen: set<Item>) {
    forall x :: x in added ==> x !in seen
  }

  lemma StartedOnce(s: State, t: State, added: map<Item, Event>, w: Item, co: nat)
    requires OnceEach(s.q.ev, s.started, s.log) && Started(s, t, added, w, co) && s.started <= s.seen
    requires AllNew(added, s.seen)
    ensures OnceEach(t.q.ev, t.started, t.log)
  {
  }

  lemma StartedQuiet(s: State, t: State, added: map<Item, Event>, w: Item, co: nat)
    requires Quiet(s.q, s.draining, s.batch) && Started(s, t, added, w, co) && AllUnlabelled(added)
    requires t.draining == s.draining && t.batch == s.batch && t.q.active == s.q.active
    requires Lists(s.q)
    ensures Quiet(t.q, t.draining, t.batch)
  {
  }

  lemma StartedKeeps(s: State, t: State, added: map<Item, Event>, w: Item)
    requires Inv(s) && |s.call| > 1 && Started(s, t, added, w, Running(s)) && AllUnlabelled(added) && AllNew(added, s.seen)
    requires t.call == s.call[..|s.call| - 1] && t.draining == s.draining && t.batch == s.batch && t.Now == s.Now
    requires t.q.active == s.q.active && Times(t) && QInv(t.q, t.Now, t.batch)
    requires t.seen == s.seen + added.Keys
    ensures Inv(t)
  {
    hide QInv, OnceEach, Quiet, Blocks, Distinct;
    assert Running(s) in s.call;
    PopKeepsControl(s.call, s.status, Blocked(w));
    StartedBlocks(s, t, added, w, Running(s));
    StartedOnce(s, t, added, w, Running(s));
    assert Lists(s.q) by {
      QInvLists(s.q, s.Now, s.batch);
    }
    StartedQuiet(s, t, added, w, Running(s));
  }

  lemma QInvLists(q: Queues, now: int, done: seq<Item>)
    requires QInv(q, now, done)
    ensures Lists(q) && InWindow(q.wheel) && Shapes(q.ev)
  {
    hide Lists, Shapes, OnePending, Polls, Waits, Signalled, ActiveDue;
  }

  lemma PollFresh(s: State, poll: Item, fds: seq<Item>, expire: int)
    requires Known(s.q.ev, s.batch, s.started, s.seen)
    requires poll !in s.seen && poll !in fds && Distinct(fds) && forall x :: x in fds ==> x !in s.seen
    ensures FreshItems(s.q, poll, fds) && NoneOf(s.batch, fds)
    ensures var added := PollObjects(Running(s), poll, fds, expire);
            AllNew(added, s.seen) && AllUnlabelled(added) && added.Keys == {poll} + (set x | x in fds)
    requires s.call != []
  {
  }

  lemma PollEnterStart(q: Queues, co: nat, poll: Item, fds: seq<Item>, timeout: int, at: int)
    requires q.wheel.start <= at
    ensures var r := PollEnter(q, co, poll, fds, timeout, at); r.wheel.start == Begin(q.wheel, at).start
    ensures !Accepts(q.wheel, at + timeout, at) ==>
      PollEnter(q, co, poll, fds, timeout, at) == q.(wheel := Begin(q.wheel, at))
  {
    hide Linked;
  }

  lemma WaitEnterStart(q: Queues, co: nat, item: Item, cv: Cv, timeout: int, at: int)
    requires q.wheel.start <= at
    ensures var r := WaitEnter(q, co, item, cv, timeout, at);
            r.wheel.start == q.wheel.start || r.wheel.start == Begin(q.wheel, at).start
    ensures !WaitAccepted(q, timeout, at) ==>
      WaitEnter(q, co, item, cv, timeout, at) == q.(wheel := Begin(q.wheel, at))
  {
    hide Linked;
  }

  lemma PollStarted(s: State, poll: Item, fds: seq<Item>, timeout: int, at: int)
    requires Inv(s) && Enabled(s, CallPoll(poll, fds, timeout, at)) && Accepts(s.q.wheel, at + timeout, at)
    requires FreshItems(s.q, poll, fds)
    ensures var t := Next(s, CallPoll(poll, fds, timeout, at));
            Started(s, t, PollObjects(Running(s), poll, fds, at + timeout), poll, Running(s))
            && t.q.active == s.q.active && 0 <= t.q.wheel.start <= at
  {
    hide Control, OnceEach, Quiet, Blocks, Known, QInv, Lists, InWindow, PollEnter, FreshItems, Distinct;
    QInvLists(s.q, s.Now, s.batch);
    PollEnterFacts(s.q, Running(s), poll, fds, timeout, at);
    PollEnterStart(s.q, Running(s), poll, fds, timeout, at);
  }

  lemma PollStep(s: State, poll: Item, fds: seq<Item>, timeout: int, at: int)
    requires Inv(s) && Enabled(s, CallPoll(poll, fds, timeout, at))
    ensures Inv(Next(s, CallPoll(poll, fds, timeout, at)))
  {
    hide QInv, Control, OnceEach, Quiet, Blocks, Known, Distinct, PollEnter, Accepts, FreshItems;
    PollEnterStart(s.q, Running(s), poll, fds, timeout, at);
    PollFresh(s, poll, fds, at + timeout);
    PollEnterKeeps(s.q, Running(s), poll, fds, timeout, at, s.Now, s.batch);
    var t := Next(s, CallPoll(poll, fds, timeout, at));
    if Accepts(s.q.wheel, at + timeout, at) {
      PollStarted(s, poll, fds, timeout, at);
      hide Started;
      StartedKeeps(s, t, PollObjects(Running(s), poll, fds, at + timeout), poll);
    } else {
      RefusedKeeps(s, t);
    }
  }

  /** A refused timer leaves nothing behind but the clock. */
  lemma RefusedKeeps(s: State, t: State)
    requires Inv(s) && Times(t) && QInv(t.q, t.Now, t.batch) && s.seen <= t.seen
    requires t == s.(q := s.q.(wheel := t.q.wheel), clock := t.clock, seen := t.seen)
    ensures Inv(t)
  {
    hide QInv, Control, OnceEach, Distinct;
  }

  lemma ItemFresh(ev: map<Item, Event>, batch: seq<Item>, started: set<Item>, seen: set<Item>, x: Item)
    requires Known(ev, batch, started, seen) && x !in seen
    ensures x !in ev
  {
  }

  lemma WaitStarted(s: State, item: Item, cv: Cv, timeout: int, at: int)
    requires Inv(s) && Enabled(s, CallWait(item, cv, timeout, at)) && WaitAccepted(s.q, timeout, at)
    requires item !in s.q.ev
    ensures var t := Next(s, CallWait(item, cv, timeout, at));
            var expire := if timeout > 0 then at + timeout else 0;
            Started(s, t, map[item := Event.Cv(Running(s), expire, false)], item, Running(s))
            && t.q.active == s.q.active && 0 <= t.q.wheel.start <= at
  {
    hide Control, OnceEach, Quiet, Blocks, Known, QInv, Lists, InWindow, WaitEnter;
    QInvLists(s.q, s.Now, s.batch);
    WaitEnterFacts(s.q, Running(s), item, cv, timeout, at);
    WaitEnterStart(s.q, Running(s), item, cv, timeout, at);
  }

  lemma WaitStep(s: State, item: Item, cv: Cv, timeout: int, at: int)
    requires Inv(s) && Enabled(s, CallWait(item, cv, timeout, at))
    ensures Inv(Next(s, CallWait(item, cv, timeout, at)))
  {
    hide QInv, Control, OnceEach, Quiet, Blocks, Known, InWindow, WaitEnter, WaitAccepted;
    assert item !in s.q.ev by {
      assert Known(s.q.ev, s.batch, s.started, s.seen);
      ItemFresh(s.q.ev, s.batch, s.started, s.seen, item);
    }
    WaitEnterStart(s.q, Running(s), item, cv, timeout, at);
    WaitEnterKeeps(s.q, Running(s), item, cv, timeout, at, s.Now, s.batch);
    var t := Next(s, CallWait(item, cv, timeout, at));
    if WaitAccepted(s.q, timeout, at) {
      WaitStarted(s, item, cv, timeout, at);
      hide Started;
      StartedKeeps(s, t, map[item := Event.Cv(Running(s), if timeout > 0 then at + timeout else 0, false)], item);
    } else {
      RefusedKeeps(s, t);
    }
  }

  // ---------- a loop turn ----------

  /** Same waits, same coroutines: only the progress of the waits changed. */
  ghost predicate SameWaits(ev: map<Item, Event>, ev': map<Item, Event>) {
    && ev.Keys == ev'.Keys
    && forall x :: x in ev ==> (ev'[x].PollFd? <==> ev[x].PollFd?) && ev'[x].ItemCo == ev[x].ItemCo
  }

  lemma SameWaitsKeeps(s: State, t: State)
    requires SameWaits(s.q.ev, t.q.ev) && Blocks(s.q, s.status) && OnceEach(s.q.ev, s.started, s.log)
    requires t.status == s.status && t.started == s.started && t.log == s.log
    ensures Blocks(t.q, t.status) && OnceEach(t.q.ev, t.started, t.log)
  {
    hide Distinct;
    forall x | x in t.q.ev && IsWait(t.q, x)
      ensures t.q.ev[x].ItemCo in t.status && t.status[t.q.ev[x].ItemCo] == Blocked(x)
    {
      assert IsWait(s.q, x);
    }
    forall c | c in t.status && t.status[c].Blocked?
      ensures IsWait(t.q, t.status[c].on) && t.q.ev[t.status[c].on].ItemCo == c
    {
      assert IsWait(s.q, s.status[c].on);
    }
  }

  /** Before anything expired, the invariant does not depend on what the current time is. */
  lemma AnyNow(q: Queues, now: int, now': int, done: seq<Item>)
    requires QInv(q, now, done) && Unlabelled(q.ev)
    ensures QInv(q, now', done)
  {
    hide Lists, Shapes, Timers, OnePending, Polls, Waits, Signalled;
  }

  lemma {:induction false} PrepareAllStart(q: Queues, batch: seq<Item>)
    ensures PrepareAll(q, batch).wheel.start == q.wheel.start
  {
    if batch != [] {
      PrepareAllStart(q, batch[..|batch| - 1]);
    }
  }

  lemma TurnQueues(s: State, events: seq<Item>, at: int)
    requires Inv(s) && Enabled(s, Turn(events, at))
    ensures var q' := Next(s, Turn(events, at)).q;
            QInv(q', at, events) && SameWaits(s.q.ev, q'.ev) && q'.wheel.start == at
  {
    hide Control, Blocks, OnceEach, Known, QInv, Distinct;
    var q0, q1 := s.q, PrepareAll(s.q, events);
    PrepareAllKeeps(q0, events, s.Now);
    PrepareAllStart(q0, events);
    AnyNow(q1, s.Now, at, events);
    CollectKeeps(q1, at, events);
    assert SameItems(q0.ev, q1.ev);
  }

  lemma TurnStep(s: State, events: seq<Item>, at: int)
    requires Inv(s) && Enabled(s, Turn(events, at))
    ensures Inv(Next(s, Turn(events, at)))
  {
    hide Control, Blocks, OnceEach, QInv, Distinct, PrepareAll, CollectTimeouts;
    TurnQueues(s, events, at);
    SameWaitsKeeps(s, Next(s, Turn(events, at)));
    forall x | x in events ensures x in s.seen {
      assert IsLiveFd(s.q, x);
    }
  }

  // ---------- the drain ----------

  lemma DrainEndQueues(q: Queues, now: int, done: seq<Item>)
    requires QInv(q, now, done) && q.active == []
    ensures QInv(q, now, []) && Unlabelled(q.ev)
  {
    forall p | p in q.ev && q.ev[p].Poll? ensures PollPlaced(q, p, []) {
      assert PollPlaced(q, p, done);
    }
    hide Lists, Shapes, Timers, OnePending, Waits;
  }

  /** In a drain the head item always belongs to a coroutine that is blocked in the very wait the
      item is for, so its callback resumes that wait and no other. */
  lemma HeadCanWake(s: State)
    requires Inv(s) && s.q.active != []
    ensures CanWake(s)
    ensures var x := s.q.active[0]; s.status[s.q.ev[x].ItemCo] == Blocked(Owner(s.q.ev, x))
    ensures IsWait(s.q, Owner(s.q.ev, s.q.active[0]))
  {
    SoleHead(s.q, s.Now, s.batch);
    hide QInv, Control, Quiet, OnceEach, Known;
  }

  /** The wait w of coroutine co returned: its objects are gone. */
  lemma ReturnedBlocks(s: State, t: State, w: Item, co: nat)
    requires Blocks(s.q, s.status) && Shapes(s.q.ev) && IsWait(s.q, w) && s.q.ev[w].ItemCo == co
    requires t.q.ev == s.q.ev - Group(s.q.ev, w) && t.status == s.status[co := OnStack]
    ensures Blocks(t.q, t.status)
  {
    forall x | x in t.q.ev && IsWait(t.q, x)
      ensures t.q.ev[x].ItemCo in t.status && t.status[t.q.ev[x].ItemCo] == Blocked(x)
    {
      assert IsWait(s.q, x) && x in s.q.ev && x !in Group(s.q.ev, w);
    }
    forall c | c in t.status && t.status[c].Blocked?
      ensures IsWait(t.q, t.status[c].on) && t.q.ev[t.status[c].on].ItemCo == c
    {
      assert IsWait(s.q, s.status[c].on);
      NotInGroup(s.q.ev, w, s.status[c].on);
    }
  }

  lemma ReturnedOnce(ev: map<Item, Event>, started: set<Item>, log: seq<Wake>, w: Item, r: int)
    requires OnceEach(ev, started, log) && Shapes(ev) && w in ev && !ev[w].PollFd?
    ensures OnceEach(ev - Group(ev, w), started, log + [Wake(w, r)])
  {
    var ev' := ev - Group(ev, w);
    assert Returned(log + [Wake(w, r)]) == Returned(log) + [w];
    forall v | v in started ensures v in ev' <==> v !in Returned(log) + [w] {
      if v in ev && v != w {
        NotInGroup(ev, w, v);
      }
    }
  }

  lemma DrainEnds(s: State)
    requires Inv(s) && Enabled(s, Drain) && s.q.active == []
    ensures Inv(DrainOne(s))
  {
    hide Control, Blocks, OnceEach, Distinct, QInv;
    DrainEndQueues(s.q, s.Now, s.batch);
  }

  lemma LeaveEv(q: Queues, w: Item)
    requires IsWait(q, w) && q.active != []
    ensures Leave(PopActive(q), w).ev == q.ev - Group(q.ev, w)
    ensures Leave(PopActive(q), w).wheel.start == q.wheel.start
  {
  }

  lemma DrainWakes(s: State)
    requires Inv(s) && Enabled(s, Drain) && s.q.active != []
    ensures Inv(DrainOne(s))
  {
    hide Control, Blocks, OnceEach, Distinct, QInv, Shapes, Leave, Sole, Group;
    HeadCanWake(s);
    SoleHead(s.q, s.Now, s.batch);
    QInvLists(s.q, s.Now, s.batch);
    var w := Owner(s.q.ev, s.q.active[0]);
    var co := s.q.ev[s.q.active[0]].ItemCo;
    var t := DrainOne(s);
    LeaveKeeps(s.q, s.Now, s.batch);
    LeaveEv(s.q, w);
    PushKeepsControl(s.call, s.status, co);
    ReturnedBlocks(s, t, w, co);
    ReturnedOnce(s.q.ev, s.started, s.log, w, WaitResult(s.q, w));
  }

  // ---------- every step, every run ----------

  lemma StepKeeps(s: State, a: Action)
    requires Inv(s) && Enabled(s, a)
    ensures Inv(Next(s, a))
  {
    hide Inv;
    match a
    case Resume(co) => ResumeKeeps(s, co);
    case Yield => SwitchOutKeeps(s, Ready);
    case Finish => SwitchOutKeeps(s, Ended);
    case CallPoll(poll, fds, timeout, at) => PollStep(s, poll, fds, timeout, at);
    case CallWait(item, cv, timeout, at) => WaitStep(s, item, cv, timeout, at);
    case CallSignal(cv) => SignalStep(s, cv);
    case CallBroadcast(cv) => BroadcastIsSignals(s, cv);
    case Turn(events, at) => TurnStep(s, events, at);
    case Drain => if s.q.active == [] { DrainEnds(s); } else { DrainWakes(s); }
  }

  lemma {:induction false} RunKeeps(s: State, run: seq<Action>)
    requires Inv(s) && Valid(s, run)
    ensures Inv(After(s, run))
    decreases |run|
  {
    if run != [] {
      StepKeeps(s, run[0]);
      hide Inv, Enabled, Next;
      RunKeeps(Next(s, run[0]), run[1..]);
    }
  }
}
