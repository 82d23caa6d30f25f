/** How the poll hook merges entries for the same descriptor and splits the answer again
    (hook.cpp:149-184). The kernel is an oracle that says which conditions hold on a descriptor. */
module PollMerge {
  type Events = bv16

  const POLLERR: Events := 0x008
  const POLLHUP: Events := 0x010
  const POLLNVAL: Events := 0x020
  const Always: Events := POLLERR | POLLHUP | POLLNVAL // reported whether requested or not

  function Or(a: Events, b: Events): Events {
    a | b
  }

  function And(a: Events, b: Events): Events {
    a & b
  }

  datatype pollfd = pollfd(fd: int, events: Events, revents: Events)

  // ---------- polling ----------

  /** What poll reports for an entry (chapter 3 of the System Interfaces volume of POSIX.1-2017). */
  function Reported(e: pollfd, ready: int -> Events): Events {
    if e.fd < 0 then 0 else And(ready(e.fd), Or(e.events, Always))
  }

  function Polled(fds: seq<pollfd>, ready: int -> Events): (r: seq<pollfd>)
    ensures |r| == |fds|
    ensures forall i :: 0 <= i < |fds| ==> r[i] == fds[i].(revents := Reported(fds[i], ready))
  {
    seq(|fds|, i requires 0 <= i < |fds| => fds[i].(revents := Reported(fds[i], ready)))
  }

  /** The entries poll counts. */
  function CountReady(fds: seq<pollfd>, ready: int -> Events): (n: nat)
    ensures n <= |fds|
  {
    if fds == [] then 0
    else
      var e := fds[|fds| - 1];
      CountReady(fds[..|fds| - 1], ready) + (if Reported(e, ready) != 0 then 1 else 0)
  }

  // ---------- merging ----------

  /** All that is requested for a descriptor. */
  function Requested(fds: seq<pollfd>, fd: int): Events {
    if fds == [] then 0
    else
      var e := fds[|fds| - 1];
      if e.fd == fd then Or(Requested(fds[..|fds| - 1], fd), e.events) else Requested(fds[..|fds| - 1], fd)
  }

  ghost predicate Listed(fds: seq<pollfd>, fd: int) {
    exists i :: 0 <= i < |fds| && fds[i].fd == fd
  }

  ghost predicate NoneTwice(fds: seq<pollfd>) {
    forall i, j :: 0 <= i < j < |fds| ==> fds[i].fd != fds[j].fd
  }

  /** One entry for every descriptor, which requests what all entries for it request together. */
  ghost predicate IsMerge(fds: seq<pollfd>, merge: seq<pollfd>) {
    && (forall i, j :: 0 <= i < j < |merge| ==> merge[i].fd != merge[j].fd)
    && (forall i :: 0 <= i < |merge| ==> Listed(fds, merge[i].fd) && merge[i].events == Requested(fds, merge[i].fd))
    && (forall i :: 0 <= i < |fds| ==> Listed(merge, fds[i].fd))
  }

  /** The map finds the entry of every descriptor. */
  ghost predicate Indexes(merge: seq<pollfd>, index: map<int, nat>) {
    && (forall fd :: fd in index ==> index[fd] < |merge| && merge[index[fd]].fd == fd)
    && (forall i :: 0 <= i < |merge| ==> merge[i].fd in index && index[merge[i].fd] == i)
  }

  lemma OrNone(a: Events)
    ensures Or(0, a) == a
  {
  }

  lemma OneMore(fds: seq<pollfd>, n: nat, fd: int)
    requires n < |fds|
    ensures Requested(fds[..n+1], fd) ==
              if fds[n].fd == fd then Or(Requested(fds[..n], fd), fds[n].events) else Requested(fds[..n], fd)
    ensures Listed(fds[..n+1], fd) <==> Listed(fds[..n], fd) || fds[n].fd == fd
  {
    hide Or;
    assert fds[..n+1][..n] == fds[..n];
    assert fds[..n+1][n] == fds[n];
    if Listed(fds[..n], fd) {
      var i :| 0 <= i < n && fds[..n][i].fd == fd;
      assert fds[..n+1][i].fd == fd;
    }
  }

  lemma {:induction false} NotListedNotRequested(fds: seq<pollfd>, fd: int)
    requires !Listed(fds, fd)
    ensures Requested(fds, fd) == 0
  {
    if fds != [] {
      var n := |fds| - 1;
      assert fds[n].fd != fd;
      assert forall i :: 0 <= i < n ==> fds[..n][i] == fds[i];
      NotListedNotRequested(fds[..n], fd);
    }
  }

  /** The loop of lines 161-168. */
  method Merge(fds: array<pollfd>) returns (merge: array<pollfd>, index: nat, Fd_ToEvent: map<int, nat>)
    ensures fresh(merge) && index <= merge.Length == fds.Length
    ensures IsMerge(fds[..], merge[..index]) && Indexes(merge[..index], Fd_ToEvent)
    ensures index == fds.Length <==> NoneTwice(fds[..])
  {
    hide Or, IsMerge, Indexes, NoneTwice, Listed;
    merge := new pollfd[fds.Length](_ => pollfd(0, 0, 0));
    index := 0;
    Fd_ToEvent := map[];
    assert IsMerge(fds[..0], merge[..0]) && Indexes(merge[..0], Fd_ToEvent) && NoneTwice(fds[..0]) by {
      NothingMerged(fds[..0], merge[..0]);
    }
    var i := 0;
    while i < fds.Length
      invariant 0 <= index <= i <= fds.Length
      invariant IsMerge(fds[..i], merge[..index]) && Indexes(merge[..index], Fd_ToEvent)
      invariant index == i <==> NoneTwice(fds[..i])
    {
      ghost var was := merge[..index];
      TwiceSoFar(fds[..], i, was);
      Found(was, Fd_ToEvent, fds[i].fd);
      if fds[i].fd !in Fd_ToEvent {
        IndexGrows(was, Fd_ToEvent, fds[i]);
        merge[index] := fds[i];
        Fd_ToEvent := Fd_ToEvent[fds[i].fd := index];
        index := index + 1;
        assert merge[..index] == was + [fds[i]];
        Appended(fds[..], i, was, merge[..index]);
      } else {
        var k := Fd_ToEvent[fds[i].fd];
        IndexKeeps(was, Fd_ToEvent, k, Or(was[k].events, fds[i].events));
        merge[k] := merge[k].(events := Or(merge[k].events, fds[i].events));
        assert merge[..index] == was[k := merge[k]];
        Joined(fds[..], i, was, k, merge[..index]);
      }
      i := i + 1;
    }
    assert fds[..i] == fds[..];
  }

  lemma NothingMerged(fds: seq<pollfd>, merge: seq<pollfd>)
    requires fds == [] && merge == []
    ensures IsMerge(fds, merge) && Indexes(merge, map[]) && NoneTwice(fds)
  {
  }

  lemma Found(merge: seq<pollfd>, index: map<int, nat>, fd: int)
    requires Indexes(merge, index)
    ensures fd in index <==> Listed(merge, fd)
    ensures fd in index ==> index[fd] < |merge| && merge[index[fd]].fd == fd
  {
  }

  lemma IndexGrows(merge: seq<pollfd>, index: map<int, nat>, e: pollfd)
    requires Indexes(merge, index) && !Listed(merge, e.fd)
    ensures Indexes(merge + [e], index[e.fd := |merge|])
  {
    forall i | 0 <= i < |merge| ensures merge[i].fd != e.fd {
    }
  }

  lemma IndexKeeps(merge: seq<pollfd>, index: map<int, nat>, k: nat, events: Events)
    requires Indexes(merge, index) && k < |merge|
    ensures Indexes(merge[k := merge[k].(events := events)], index)
  {
  }

  lemma TwiceSoFar(fds: seq<pollfd>, i: nat, merge: seq<pollfd>)
    requires i < |fds| && IsMerge(fds[..i], merge)
    ensures NoneTwice(fds[..i+1]) <==> NoneTwice(fds[..i]) && !Listed(merge, fds[i].fd)
  {
    var r := fds[..i+1];
    assert forall k :: 0 <= k < i ==> r[k] == fds[..i][k];
    if Listed(merge, fds[i].fd) {
      var k :| 0 <= k < |merge| && merge[k].fd == fds[i].fd;
      var j :| 0 <= j < i && fds[..i][j].fd == merge[k].fd;
      assert r[j].fd == r[i].fd;
    } else if NoneTwice(fds[..i]) {
      forall k | 0 <= k < i ensures r[k].fd != r[i].fd {
        assert Listed(merge, fds[..i][k].fd);
      }
    }
  }

  lemma Appended(fds: seq<pollfd>, i: nat, was: seq<pollfd>, merge: seq<pollfd>)
    requires i < |fds| && IsMerge(fds[..i], was) && merge == was + [fds[i]]
    requires !Listed(was, fds[i].fd)
    ensures IsMerge(fds[..i+1], merge)
  {
    OrNone(fds[i].events);
    hide Or;
    var r := fds[..i+1];
    assert !Listed(fds[..i], fds[i].fd);
    forall k | 0 <= k < |merge| ensures Listed(r, merge[k].fd) && merge[k].events == Requested(r, merge[k].fd) {
      OneMore(fds, i, merge[k].fd);
      if k == |was| {
        NotListedNotRequested(fds[..i], fds[i].fd);
      }
    }
    forall k | 0 <= k < |r| ensures Listed(merge, r[k].fd) {
      if k < i {
        assert r[k] == fds[..i][k] && Listed(was, fds[..i][k].fd);
        var j :| 0 <= j < |was| && was[j].fd == r[k].fd;
        assert merge[j].fd == r[k].fd;
      } else {
        assert merge[|was|].fd == r[k].fd;
      }
    }
  }

  lemma Joined(fds: seq<pollfd>, i: nat, was: seq<pollfd>, k: nat, merge: seq<pollfd>)
    requires i < |fds| && IsMerge(fds[..i], was) && k < |was| && was[k].fd == fds[i].fd
    requires merge == was[k := was[k].(events := Or(was[k].events, fds[i].events))]
    ensures IsMerge(fds[..i+1], merge)
  {
    hide Or;
    var r := fds[..i+1];
    forall j | 0 <= j < |merge| ensures Listed(r, merge[j].fd) && merge[j].events == Requested(r, merge[j].fd) {
      OneMore(fds, i, merge[j].fd);
      if j != k {
        assert was[j].fd != was[k].fd;
      }
    }
    forall j | 0 <= j < |r| ensures Listed(merge, r[j].fd) {
      if j < i {
        assert r[j] == fds[..i][j] && Listed(was, fds[..i][j].fd);
        var l :| 0 <= l < |was| && was[l].fd == r[j].fd;
        assert merge[l].fd == r[j].fd;
      } else {
        assert merge[k].fd == r[j].fd;
      }
    }
  }

  // ---------- splitting ----------

  /** What polling an entry alone would report of its own request. */
  function Own(e: pollfd, ready: int -> Events): Events {
    And(Reported(e, ready), e.events)
  }

  /** What Co_poll_inner leaves in an entry. It answers into an array that it does not initialise
      (Co_Routine.cpp:706), writes there only for descriptors that fire (line 687) and copies all of it
      back (line 775), also when it has refused the timeout. junk is what the array held, by descriptor. */
  function Copied(e: pollfd, refused: bool, ready: int -> Events, junk: int -> Events): Events {
    if !refused && Reported(e, ready) != 0 then Reported(e, ready) else junk(e.fd)
  }

  /** The entry of a descriptor in a merged poll. */
  function MergedEntry(fds: seq<pollfd>, fd: int): pollfd {
    pollfd(fd, Requested(fds, fd), 0)
  }

  /** What the hook leaves in an entry of a merged poll that reports something. */
  function Split(fds: seq<pollfd>, i: nat, ready: int -> Events, junk: int -> Events): Events
    requires i < |fds|
  {
    And(Copied(MergedEntry(fds, fds[i].fd), false, ready, junk), fds[i].events)
  }

  lemma OrCovers(a: Events, b: Events, c: Events)
    requires And(a, b) == a
    ensures And(a, Or(b, c)) == a && And(c, Or(b, c)) == c
  {
  }

  lemma {:induction false} RequestCovers(fds: seq<pollfd>, i: nat)
    requires i < |fds|
    ensures And(fds[i].events, Requested(fds, fds[i].fd)) == fds[i].events
  {
    var n := |fds| - 1;
    hide Or, And;
    if i < n {
      assert fds[..n][i] == fds[i];
      RequestCovers(fds[..n], i);
      if fds[n].fd == fds[i].fd {
        OrCovers(fds[i].events, Requested(fds[..n], fds[i].fd), fds[n].events);
      }
    } else {
      Idle(fds[n].events);
      OrCovers(0, Requested(fds[..n], fds[n].fd), fds[n].events);
    }
  }

  lemma Idle(a: Events)
    ensures forall b: Events :: And(0, b) == 0
  {
  }

  lemma SplitBits(ready: Events, requested: Events, mine: Events)
    requires And(mine, requested) == mine
    ensures And(And(ready, Or(requested, Always)), mine) == And(And(ready, Or(mine, Always)), mine)
  {
  }

  lemma MergedOwn(fds: seq<pollfd>, i: nat, ready: int -> Events)
    requires i < |fds|
    ensures And(Reported(MergedEntry(fds, fds[i].fd), ready), fds[i].events) == Own(fds[i], ready)
  {
    hide Or, And;
    RequestCovers(fds, i);
    SplitBits(ready(fds[i].fd), Requested(fds, fds[i].fd), fds[i].events);
  }

  /** After a merged poll an entry holds what polling it alone would report of its request exactly when
      some entry for its descriptor reports a condition, or the uninitialised memory has none of its
      requested bits. */
  lemma SplitIsDirectIff(fds: seq<pollfd>, i: nat, ready: int -> Events, junk: int -> Events)
    requires i < |fds|
    ensures Split(fds, i, ready, junk) == Own(fds[i], ready) <==>
              Reports(fds, fds[i].fd, ready) || And(junk(fds[i].fd), fds[i].events) == 0
  {
    hide Or, And;
    MergedOwn(fds, i, ready);
    assert Listed(fds, fds[i].fd);
    RequestedReports(fds, fds[i].fd, ready);
    Idle(fds[i].events);
  }

  /** After a poll that is not merged an entry holds what polling it would report exactly when it reports
      something, or the uninitialised memory happens to hold just that. */
  lemma CopiedIsDirectIff(e: pollfd, ready: int -> Events, junk: int -> Events)
    ensures Copied(e, false, ready, junk) == Reported(e, ready) <==> Reported(e, ready) != 0 || junk(e.fd) == 0
    ensures Copied(e, true, ready, junk) == Reported(e, ready) <==> junk(e.fd) == Reported(e, ready)
  {
  }

  /** Two entries for descriptor 3 and one for descriptor 4, of which only 3 becomes readable. */
  function ThreeEntries(): seq<pollfd> {
    [pollfd(3, 1, 0), pollfd(3, 4, 0), pollfd(4, 1, 0)]
  }

  /** The hook can report a readable descriptor that is not. */
  lemma SplitReportsJunk()
    ensures var ready := (fd: int) => if fd == 3 then 1 as Events else 0;
            var junk := (fd: int) => 1 as Events;
            Split(ThreeEntries(), 2, ready, junk) == 1 && Own(ThreeEntries()[2], ready) == 0
  {
    var fds := ThreeEntries();
    OneMore(fds, 0, 4);
    OneMore(fds, 1, 4);
    OneMore(fds, 2, 4);
    assert fds[..0] == [] && fds[..3] == fds;
  }

  /** What polling an entry alone would report of its request is all it would report exactly when no
      condition holds on the descriptor that is reported without being requested. */
  lemma OwnIsAllIff(e: pollfd, ready: int -> Events)
    ensures Own(e, ready) == Reported(e, ready) <==> e.fd < 0 || ready(e.fd) & 0x38 & !e.events == 0
  {
  }

  /** Co_poll_inner over the oracle, for distinct descriptors; it refuses a timeout the wheel cannot hold. */
  method Co_poll_inner(fds: array<pollfd>, nfds: nat, refused: bool, ready: int -> Events, junk: int -> Events)
    returns (n: int)
    requires nfds <= fds.Length && NoneTwice(fds[..nfds])
    modifies fds
    ensures n == if refused then -1 else CountReady(old(fds[..nfds]), ready)
    ensures forall i :: 0 <= i < nfds ==>
      fds[i] == old(fds[i]).(revents := Copied(old(fds[i]), refused, ready, junk))
    ensures fds[nfds..] == old(fds[nfds..])
  {
    n := if refused then -1 else CountReady(fds[..nfds], ready);
    forall i | 0 <= i < nfds {
      fds[i] := fds[i].(revents := Copied(fds[i], refused, ready, junk));
    }
  }

  /** The poll of the system, which the hook leaves alone when it is off or the call does not block. */
  method SystemPoll(fds: array<pollfd>, ready: int -> Events) returns (n: int)
    modifies fds
    ensures fds[..] == Polled(old(fds[..]), ready) && n == CountReady(old(fds[..]), ready)
  {
    n := CountReady(fds[..], ready);
    forall i | 0 <= i < fds.Length {
      fds[i] := fds[i].(revents := Reported(fds[i], ready));
    }
  }

  /** poll. */
  method poll(fds: array<pollfd>, hooked: bool, timeout: int, refuses: int -> bool, ready: int -> Events,
      junk: int -> Events) returns (n: int)
    modifies fds
    ensures !hooked || timeout == 0 ==>
      fds[..] == Polled(old(fds[..]), ready) && n == CountReady(old(fds[..]), ready)
    ensures hooked && timeout != 0 && NoneTwice(old(fds[..])) ==>
      var refused := refuses(if timeout < 0 then 0x7FFF_FFFF else timeout);
      && n == (if refused then -1 else CountReady(old(fds[..]), ready))
      && forall i :: 0 <= i < fds.Length ==>
           fds[i] == old(fds[i]).(revents := Copied(old(fds[i]), refused, ready, junk))
    ensures hooked && timeout != 0 && !NoneTwice(old(fds[..])) ==>
      var refused := refuses(if timeout < 0 then 0x7FFF_FFFF else timeout);
      && n == (if refused then -1 else |ReadySet(old(fds[..]), ready)|)
      && forall i :: 0 <= i < fds.Length ==>
           fds[i] == if n > 0 then old(fds[i]).(revents := Split(old(fds[..]), i, ready, junk)) else old(fds[i])
  {
    hide Or, And, Copied, Split;
    ghost var was := fds[..];
    if !hooked || timeout == 0 {
      n := SystemPoll(fds, ready);
      return;
    }
    var limit := if timeout < 0 then 0x7FFF_FFFF else timeout;
    var merge, index, Fd_ToEvent := new pollfd[0](_ => pollfd(0, 0, 0)), 0, map[];
    if fds.Length > 1 {
      merge, index, Fd_ToEvent := Merge(fds);
    }
    assert fds[..fds.Length] == fds[..] == was;
    if fds.Length == index || fds.Length < 2 {
      n := Co_poll_inner(fds, fds.Length, refuses(limit), ready, junk);
    } else {
      ghost var m := merge[..index];
      n := Co_poll_inner(merge, index, refuses(limit), ready, junk);
      if !refuses(limit) {
        MergedCount(was, m, ready);
      }
      if n > 0 {
        SplitAnswer(fds, merge, index, Fd_ToEvent, m, ready, junk);
      }
    }
  }

  /** The loop of lines 179-182. */
  method SplitAnswer(fds: array<pollfd>, merge: array<pollfd>, index: nat, Fd_ToEvent: map<int, nat>, ghost m: seq<pollfd>,
      ready: int -> Events, junk: int -> Events)
    requires fds != merge && index <= merge.Length && IsMerge(fds[..], m) && Indexes(m, Fd_ToEvent) && |m| == index
    requires forall k :: 0 <= k < index ==> merge[k].revents == Copied(m[k], false, ready, junk)
    modifies fds
    ensures forall i :: 0 <= i < fds.Length ==>
      fds[i] == old(fds[i]).(revents := Split(old(fds[..]), i, ready, junk))
  {
    hide Or, And, Requested;
    ghost var was := fds[..];
    var i := 0;
    while i < fds.Length
      invariant 0 <= i <= fds.Length
      invariant forall k :: 0 <= k < index ==> merge[k].revents == Copied(m[k], false, ready, junk)
      invariant forall j :: 0 <= j < i ==> fds[j] == was[j].(revents := Split(was, j, ready, junk))
      invariant forall j :: i <= j < fds.Length ==> fds[j] == was[j]
    {
      assert Listed(m, was[i].fd);
      var item := Fd_ToEvent[fds[i].fd];
      fds[i] := fds[i].(revents := And(merge[item].revents, fds[i].events));
      i := i + 1;
    }
  }

  // ---------- the number of entries reported ----------

  /** The descriptors some entry reports on. */
  function ReadySet(fds: seq<pollfd>, ready: int -> Events): set<int> {
    if fds == [] then {}
    else
      var e := fds[|fds| - 1];
      ReadySet(fds[..|fds| - 1], ready) + (if Reported(e, ready) != 0 then {e.fd} else {})
  }

  /** Some entry for fd reports a condition. */
  ghost predicate Reports(fds: seq<pollfd>, fd: int, ready: int -> Events) {
    exists i :: 0 <= i < |fds| && fds[i].fd == fd && Reported(fds[i], ready) != 0
  }

  lemma ReportsPrefix(fds: seq<pollfd>, fd: int, ready: int -> Events)
    requires fds != []
    ensures var n := |fds| - 1;
            Reports(fds, fd, ready) <==> Reports(fds[..n], fd, ready) || (fds[n].fd == fd && Reported(fds[n], ready) != 0)
  {
    var n := |fds| - 1;
    hide Reported;
    if Reports(fds[..n], fd, ready) {
      var i :| 0 <= i < n && fds[..n][i].fd == fd && Reported(fds[..n][i], ready) != 0;
      assert fds[i].fd == fd;
    }
    if Reports(fds, fd, ready) && !(fds[n].fd == fd && Reported(fds[n], ready) != 0) {
      var i :| 0 <= i <= n && fds[i].fd == fd && Reported(fds[i], ready) != 0;
      assert fds[..n][i].fd == fd;
    }
  }

  lemma {:induction false} ReadySetIs(fds: seq<pollfd>, ready: int -> Events, fd: int)
    ensures fd in ReadySet(fds, ready) <==> Reports(fds, fd, ready)
  {
    hide Reported;
    if fds != [] {
      ReadySetIs(fds[..|fds| - 1], ready, fd);
      ReportsPrefix(fds, fd, ready);
    }
  }

  lemma ReadyBits(ready: Events, a: Events, b: Events)
    ensures And(ready, Or(Or(a, b), Always)) != 0 <==> And(ready, Or(a, Always)) != 0 || And(ready, Or(b, Always)) != 0
  {
    hide And, Or;
    var x, y, z := And(ready, a), And(ready, b), And(ready, Always);
    Distributes(ready, Or(a, b), Always);
    Distributes(ready, a, b);
    Distributes(ready, a, Always);
    Distributes(ready, b, Always);
    NoBits(Or(x, y), z);
    NoBits(x, y);
    NoBits(x, z);
    NoBits(y, z);
  }

  lemma Distributes(r: Events, a: Events, b: Events)
    ensures And(r, Or(a, b)) == Or(And(r, a), And(r, b))
  {
  }

  lemma NoBits(x: Events, y: Events)
    ensures Or(x, y) == 0 <==> x == 0 && y == 0
  {
  }

  /** Some entry for a descriptor reports a condition exactly when the merged one does. */
  lemma RequestedReports(fds: seq<pollfd>, fd: int, ready: int -> Events)
    requires Listed(fds, fd)
    ensures Reported(MergedEntry(fds, fd), ready) != 0 <==> Reports(fds, fd, ready)
  {
    if fd >= 0 {
      RequestedBits(fds, fd, ready);
    }
    hide And, Or;
  }

  lemma {:induction false} RequestedBits(fds: seq<pollfd>, fd: int, ready: int -> Events)
    requires Listed(fds, fd) && fd >= 0
    ensures And(ready(fd), Or(Requested(fds, fd), Always)) != 0 <==> Reports(fds, fd, ready)
  {
    hide And, Or;
    var n := |fds| - 1;
    assert fds[..n+1] == fds;
    OneMore(fds, n, fd);
    ReportsPrefix(fds, fd, ready);
    if Listed(fds[..n], fd) {
      RequestedBits(fds[..n], fd, ready);
      ReadyBits(ready(fd), Requested(fds[..n], fd), fds[n].events);
    } else {
      NotListedNotRequested(fds[..n], fd);
      OrNone(fds[n].events);
    }
  }

  /** Each report of a descriptor counts once, unless two entries report on the same descriptor. */
  lemma {:induction false} CountIsSet(fds: seq<pollfd>, ready: int -> Events)
    ensures |ReadySet(fds, ready)| <= CountReady(fds, ready)
    ensures |ReadySet(fds, ready)| == CountReady(fds, ready) <==> NoneReportedTwice(fds, ready)
  {
    hide Reported;
    if fds != [] {
      var n := |fds| - 1;
      var e, was := fds[n], fds[..n];
      CountIsSet(was, ready);
      ReadySetIs(was, ready, e.fd);
      TwicePrefix(fds, ready);
    }
  }

  ghost predicate NoneReportedTwice(fds: seq<pollfd>, ready: int -> Events) {
    forall i, j :: 0 <= i < j < |fds| && fds[i].fd == fds[j].fd ==>
      Reported(fds[i], ready) == 0 || Reported(fds[j], ready) == 0
  }

  lemma TwicePrefix(fds: seq<pollfd>, ready: int -> Events)
    requires fds != []
    ensures var n := |fds| - 1;
            NoneReportedTwice(fds, ready) <==>
              NoneReportedTwice(fds[..n], ready) && (Reported(fds[n], ready) != 0 ==> !Reports(fds[..n], fds[n].fd, ready))
  {
    hide Reported;
    var n := |fds| - 1;
    var was := fds[..n];
    assert forall i :: 0 <= i < n ==> was[i] == fds[i];
  }

  lemma MergedReports(fds: seq<pollfd>, merge: seq<pollfd>, ready: int -> Events, fd: int)
    requires IsMerge(fds, merge)
    ensures Reports(fds, fd, ready) <==> Reports(merge, fd, ready)
  {
    hide And, Or;
    if Reports(fds, fd, ready) {
      var i :| 0 <= i < |fds| && fds[i].fd == fd && Reported(fds[i], ready) != 0;
      assert Listed(merge, fds[i].fd) && Listed(fds, fd);
      var k :| 0 <= k < |merge| && merge[k].fd == fd;
      RequestedReports(fds, fd, ready);
    }
    if Reports(merge, fd, ready) {
      var k :| 0 <= k < |merge| && merge[k].fd == fd && Reported(merge[k], ready) != 0;
      assert Listed(fds, merge[k].fd);
      RequestedReports(fds, fd, ready);
    }
  }

  /** A merged poll counts descriptors, not entries. */
  lemma MergedCount(fds: seq<pollfd>, merge: seq<pollfd>, ready: int -> Events)
    requires IsMerge(fds, merge)
    ensures CountReady(merge, ready) == |ReadySet(fds, ready)|
  {
    hide Reported;
    CountIsSet(merge, ready);
    forall fd ensures fd in ReadySet(fds, ready) <==> fd in ReadySet(merge, ready) {
      ReadySetIs(fds, ready, fd);
      ReadySetIs(merge, ready, fd);
      MergedReports(fds, merge, ready, fd);
    }
    assert ReadySet(fds, ready) == ReadySet(merge, ready);
  }

  /** So the hook returns the number POSIX asks for exactly when no two entries for one descriptor both
      have something to report. */
  lemma MergedCountIsRightIff(fds: seq<pollfd>, merge: seq<pollfd>, ready: int -> Events)
    requires IsMerge(fds, merge)
    ensures CountReady(merge, ready) == CountReady(fds, ready) <==> NoneReportedTwice(fds, ready)
  {
    MergedCount(fds, merge, ready);
    CountIsSet(fds, ready);
  }
}
