/** What the lists behind poll, the event loop and the condition variables hold
    (Co_Routine.cpp:684-957), as values: which items are pending where, the waiters of each
    condition variable, and the fields of every item that has been allocated and not yet freed. */
module EventQueues {
  import opened Sequences
  import opened IntrusiveList
  import opened Events
  import opened WheelSpec

  // A condition variable is a list whose nodes embed an event item.
  type Cv = List<Item>

  datatype Queues = Queues(
    wheel: Wheel<Item>,
    timeout: seq<Item>,
    active: seq<Item>,
    cvs: map<Cv, seq<Item>>,
    ev: map<Item, Event>)

  function Waiters(q: Queues, cv: Cv): seq<Item> {
    if cv in q.cvs then q.cvs[cv] else []
  }

  predicate InWheel(q: Queues, x: Item) {
    x in Items(q.wheel.held)
  }

  /** x is on a list, which is what a non-null Link says. */
  predicate Linked(q: Queues, x: Item) {
    InWheel(q, x) || x in q.timeout || x in q.active
  }

  // ---------- single list operations ----------

  function Unlink(q: Queues, x: Item): Queues {
    q.(wheel := q.wheel.(held := Drop(q.wheel.held, x)),
       timeout := Without(q.timeout, x),
       active := Without(q.active, x))
  }

  function AddActive(q: Queues, x: Item): Queues {
    if Linked(q, x) then q else q.(active := q.active + [x])
  }

  function AddTimer(q: Queues, x: Item, now: int): Queues
    requires x in q.ev
  {
    if Linked(q, x) then q.(wheel := Begin(q.wheel, now))
    else q.(wheel := AddTimeOut(q.wheel, x, q.ev[x].ExpireTime, now))
  }

  // ---------- poll ----------

  function FreshPoll(co: nat, expire: int, fds: seq<Item>): Event {
    Poll(co, expire, false, false, 0, fds)
  }

  /** Everything one poll allocates. */
  function PollObjects(co: nat, poll: Item, fds: seq<Item>, expire: int): map<Item, Event> {
    (map x | x in fds :: PollFd(co, 0, false, poll)) + map[poll := FreshPoll(co, expire, fds)]
  }

  /** Co_poll_inner up to its Co_yeild; a refused timer frees everything again (lines 706-784). */
  function PollEnter(q: Queues, co: nat, poll: Item, fds: seq<Item>, timeout: int, now: int): Queues {
    if Accepts(q.wheel, now + timeout, now) then
      AddTimer(q.(ev := q.ev + PollObjects(co, poll, fds, now + timeout)), poll, now)
    else
      q.(wheel := Begin(q.wheel, now))
  }

  function PollItems(q: Queues, poll: Item): set<Item>
    requires poll in q.ev && q.ev[poll].Poll?
  {
    (set x | x in q.ev[poll].WillJoinEpoll) + {poll}
  }

  /** Co_poll_inner after its Co_yeild (lines 767-785); it returns RaisedNumber. */
  function PollLeave(q: Queues, poll: Item): Queues
    requires poll in q.ev && q.ev[poll].Poll?
  {
    Unlink(q, poll).(ev := q.ev - PollItems(q, poll))
  }

  predicate IsLiveFd(q: Queues, x: Item) {
    x in q.ev && q.ev[x].PollFd? && q.ev[x].Stpoll in q.ev && q.ev[q.ev[x].Stpoll].Poll?
  }

  /** CoPrepare_ (lines 684-697): the first event of a poll cancels its timer and wakes it. */
  function CoPrepare(q: Queues, x: Item): Queues
    requires IsLiveFd(q, x)
  {
    var p := q.ev[x].Stpoll;
    var e := q.ev[p].(RaisedNumber := q.ev[p].RaisedNumber + 1);
    if q.ev[p].IsHandle then q.(ev := q.ev[p := e])
    else AddActive(Unlink(q.(ev := q.ev[p := e.(IsHandle := true)]), p), x)
  }

  /** The loop over one epoll result (lines 815-823); epoll reports only registered items. */
  function PrepareAll(q: Queues, batch: seq<Item>): Queues {
    if batch == [] then q
    else
      var r := PrepareAll(q, batch[..|batch| - 1]);
      if IsLiveFd(r, batch[|batch| - 1]) then CoPrepare(r, batch[|batch| - 1]) else r
  }

  // ---------- timers of one turn ----------

  function Labelled(ev: map<Item, Event>, late: seq<Item>): map<Item, Event> {
    map x | x in ev :: if x in late then ev[x].(IsTimeout := true) else ev[x]
  }

  /** TakeOutTimeout, SetUpTimepoutLable and the Join into the active list (lines 825-830). */
  function CollectTimeouts(q: Queues, now: int): Queues {
    var late := q.timeout + if now < Begin(q.wheel, now).start then [] else TakenOut(q.wheel, now);
    q.(wheel := TakeOutTimeout(q.wheel, now),
       timeout := [],
       active := q.active + late,
       ev := Labelled(q.ev, late))
  }

  function PopActive(q: Queues): Queues
    requires q.active != []
  {
    q.(active := q.active[1..])
  }

  // ---------- condition variables ----------

  predicate WaitAccepted(q: Queues, timeout: int, now: int) {
    timeout > 0 ==> Accepts(q.wheel, now + timeout, now)
  }

  /** ConditionVariableWait up to its Co_yeild (lines 896-914). */
  function WaitEnter(q: Queues, co: nat, x: Item, cv: Cv, timeout: int, now: int): Queues {
    if !WaitAccepted(q, timeout, now) then
      q.(wheel := Begin(q.wheel, now))
    else
      var expire := if timeout > 0 then now + timeout else 0;
      var r := q.(ev := q.ev[x := Event.Cv(co, expire, false)]);
      var t := if timeout > 0 then AddTimer(r, x, now) else r;
      t.(cvs := t.cvs[cv := Waiters(t, cv) + [x]])
  }

  /** ConditionVariableWait after its Co_yeild (lines 919-922). */
  function WaitLeave(q: Queues, x: Item): Queues {
    q.(cvs := map cv | cv in q.cvs :: Without(q.cvs[cv], x), ev := q.ev - {x})
  }

  predicate IsWait(q: Queues, w: Item) {
    w in q.ev && !q.ev[w].PollFd?
  }

  /** What a resumed coroutine does first: it finishes the wait it is blocked in. */
  function Leave(q: Queues, w: Item): Queues
    requires IsWait(q, w)
  {
    if q.ev[w].Poll? then PollLeave(q, w) else WaitLeave(q, w)
  }

  function Signal(q: Queues, cv: Cv): Queues {
    if Waiters(q, cv) == [] then q
    else
      var x := Waiters(q, cv)[0];
      AddActive(Unlink(q.(cvs := q.cvs[cv := Waiters(q, cv)[1..]]), x), x)
  }

  function Broadcast(q: Queues, cv: Cv): Queues
    decreases |Waiters(q, cv)|
  {
    if Waiters(q, cv) == [] then q else Broadcast(Signal(q, cv), cv)
  }
}
