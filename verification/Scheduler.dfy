/** The scheduler as a state machine. One step is what runs between two switches of control, or one
    library call by the running coroutine; coroutine bodies are arbitrary sequences of such steps. */
module Scheduler {
  import opened Sequences
  import opened Events
  import opened WheelSpec
  import opened EventQueues
  import opened QueueInvariant

  const Main: nat := 0
  const MaximumNumberOfCoroutinesAllowed: nat := 256

  datatype Status = Ready | OnStack | Blocked(on: Item) | Ended

  datatype Wake = Wake(wait: Item, result: int)

  datatype State = State(
    q: Queues,
    call: seq<nat>,           // Co_CallBack[0..Co_ESP)
    status: map<nat, Status>, // a coroutine not listed has not been resumed yet
    clock: int,               // the last clock reading
    Now: int,                 // the Now of the current loop turn
    draining: bool,           // the loop is between collecting and the end of its drain
    batch: seq<Item>,         // the epoll result of the current turn
    seen: set<Item>,          // every item ever allocated
    started: set<Item>,       // every wait that was accepted
    log: seq<Wake>)           // every wait that returned, in order

  datatype Action =
    | Resume(co: nat)
    | Yield
    | Finish
    | CallPoll(poll: Item, fds: seq<Item>, timeout: int, at: int)
    | CallWait(item: Item, cv: Cv, timeout: int, at: int)
    | CallSignal(cv: Cv)
    | CallBroadcast(cv: Cv)
    | Turn(events: seq<Item>, at: int)
    | Drain

  function Initial(): State {
    State(Queues(Wheel(0, []), [], [], map[], map[]), [Main], map[Main := OnStack], 0, 0, false, [], {}, {}, [])
  }

  function StatusOf(s: State, co: nat): Status {
    if co in s.status then s.status[co] else Ready
  }

  function Running(s: State): nat
    requires s.call != []
  {
    s.call[|s.call| - 1]
  }

  /** Who may do what when: items are freshly allocated, the clock does not go back, epoll reports
      registered items, the loop runs on the main coroutine, and a coroutine is resumed by user code
      only when it is neither running, nor waiting, nor ended. */
  ghost predicate Enabled(s: State, a: Action) {
    && s.call != []
    && match a
       case Resume(co) => StatusOf(s, co).Ready? && |s.call| < MaximumNumberOfCoroutinesAllowed
       case Yield => |s.call| > 1
       case Finish => |s.call| > 1
       case CallPoll(poll, fds, timeout, at) =>
         && |s.call| > 1 && s.clock <= at && 0 < at
         && poll !in s.seen && poll !in fds && Distinct(fds)
         && forall x :: x in fds ==> x !in s.seen
       case CallWait(item, cv, timeout, at) =>
         |s.call| > 1 && s.clock <= at && 0 < at && item !in s.seen
       case CallSignal(cv) => true
       case CallBroadcast(cv) => true
       case Turn(events, at) =>
         && |s.call| == 1 && !s.draining && s.clock <= at && 0 < at
         && AllLiveFds(s.q, events)
       case Drain => |s.call| == 1 && s.draining
  }

  function SwitchOut(s: State, how: Status): State
    requires s.call != []
  {
    s.(call := s.call[..|s.call| - 1], status := s.status[Running(s) := how])
  }

  function WaitResult(q: Queues, w: Item): int
    requires IsWait(q, w)
  {
    if q.ev[w].Poll? then q.ev[w].RaisedNumber else -1
  }

  /** The callback of the head item can resume its coroutine: it is blocked in a live wait. */
  predicate CanWake(s: State) {
    && s.q.active != [] && s.q.active[0] in s.q.ev
    && var st := StatusOf(s, s.q.ev[s.q.active[0]].ItemCo);
       st.Blocked? && IsWait(s.q, st.on)
  }

  /** One round of the drain loop (lines 834-850), with what the resumed coroutine does first. */
  function DrainOne(s: State): State {
    if s.q.active == [] then
      s.(draining := false, batch := [])
    else if CanWake(s) then
      var co := s.q.ev[s.q.active[0]].ItemCo;
      var w := s.status[co].on;
      s.(q := Leave(PopActive(s.q), w),
         call := s.call + [co],
         status := s.status[co := OnStack],
         log := s.log + [Wake(w, WaitResult(s.q, w))])
    else
      s.(q := PopActive(s.q))
  }

  function Next(s: State, a: Action): State
    requires s.call != []
  {
    match a
    case Resume(co) => s.(call := s.call + [co], status := s.status[co := OnStack])
    case Yield => SwitchOut(s, Ready)
    case Finish => SwitchOut(s, Ended)
    case CallPoll(poll, fds, timeout, at) =>
      var t := s.(q := PollEnter(s.q, Running(s), poll, fds, timeout, at), clock := at,
                  seen := s.seen + {poll} + (set x | x in fds));
      if Accepts(s.q.wheel, at + timeout, at)
      then SwitchOut(t, Blocked(poll)).(started := s.started + {poll})
      else t
    case CallWait(item, cv, timeout, at) =>
      var t := s.(q := WaitEnter(s.q, Running(s), item, cv, timeout, at), clock := at, seen := s.seen + {item});
      if WaitAccepted(s.q, timeout, at)
      then SwitchOut(t, Blocked(item)).(started := s.started + {item})
      else t
    case CallSignal(cv) => s.(q := Signal(s.q, cv))
    case CallBroadcast(cv) => s.(q := Broadcast(s.q, cv))
    case Turn(events, at) =>
      s.(q := CollectTimeouts(PrepareAll(s.q, events), at), clock := at, Now := at, draining := true, batch := events)
    case Drain => DrainOne(s)
  }

  // ---------- runs ----------

  ghost predicate Valid(s: State, run: seq<Action>)
    decreases |run|
  {
    run == [] || (Enabled(s, run[0]) && Valid(Next(s, run[0]), run[1..]))
  }

  function After(s: State, run: seq<Action>): State
    decreases |run|
  {
    if run == [] || s.call == [] then s else After(Next(s, run[0]), run[1..])
  }

  // ---------- the invariant ----------

  ghost predicate Control(call: seq<nat>, status: map<nat, Status>) {
    && call != [] && call[0] == Main && Distinct(call)
    && (forall c :: c in call ==> c in status && status[c].OnStack?)
    && (forall c :: c in status && status[c].OnStack? ==> c in call)
  }

  ghost predicate Times(s: State) {
    0 <= s.q.wheel.start <= s.clock && 0 <= s.Now <= s.clock
  }

  /** A live wait and the coroutine blocked in it name each other. */
  ghost predicate Blocks(q: Queues, status: map<nat, Status>) {
    && (forall w :: w in q.ev && IsWait(q, w) ==> q.ev[w].ItemCo in status && status[q.ev[w].ItemCo] == Blocked(w))
    && (forall c :: c in status && status[c].Blocked? ==> IsWait(q, status[c].on) && q.ev[status[c].on].ItemCo == c)
  }

  ghost predicate OnlyCv(active: seq<Item>, ev: map<Item, Event>) {
    forall x :: x in active && x in ev ==> ev[x].Cv?
  }

  /** Outside a drain only signalled waiters are active. */
  ghost predicate Quiet(q: Queues, draining: bool, batch: seq<Item>) {
    !draining ==> batch == [] && Unlabelled(q.ev) && OnlyCv(q.active, q.ev)
  }

  function Returned(log: seq<Wake>): (r: seq<Item>)
    ensures |r| == |log|
  {
    seq(|log|, i requires 0 <= i < |log| => log[i].wait)
  }

  /** Every accepted wait is live or has returned, never both, and returned at most once. */
  ghost predicate OnceEach(ev: map<Item, Event>, started: set<Item>, log: seq<Wake>) {
    && Distinct(Returned(log))
    && (forall w :: w in Returned(log) ==> w in started)
    && (forall w :: w in started ==> (w in ev <==> w !in Returned(log)))
    && (forall w :: w in ev ==> (w in started <==> !ev[w].PollFd?))
  }

  ghost predicate Known(ev: map<Item, Event>, batch: seq<Item>, started: set<Item>, seen: set<Item>) {
    && (forall x :: x in ev ==> x in seen)
    && (forall x :: x in batch ==> x in seen)
    && started <= seen
  }

  ghost predicate Inv(s: State) {
    && Control(s.call, s.status) && Times(s) && Blocks(s.q, s.status)
    && Quiet(s.q, s.draining, s.batch)
    && OnceEach(s.q.ev, s.started, s.log) && Known(s.q.ev, s.batch, s.started, s.seen)
    && QInv(s.q, s.Now, s.batch)
  }

  lemma InitialInv()
    ensures Inv(Initial())
  {
  }
}
