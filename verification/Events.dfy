/** The event items of Co_Routine.cpp:86-136 and 864-870. Every item names the coroutine its
    callback resumes, its expiry and whether it was taken out of the wheel as expired. */
module Events {
  import opened IntrusiveList

  type Item = Node<Event>

  datatype Event =
    // Stpoll_t: the timer of one poll
    | Poll(ItemCo: nat, ExpireTime: int, IsTimeout: bool, IsHandle: bool, RaisedNumber: nat, WillJoinEpoll: seq<Item>)
    // StPollItem: one descriptor of a poll
    | PollFd(ItemCo: nat, ExpireTime: int, IsTimeout: bool, Stpoll: Item)
    // the CoEventItem embedded in a ConditionVariableItem
    | Cv(ItemCo: nat, ExpireTime: int, IsTimeout: bool)
}
