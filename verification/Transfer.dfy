/** The hooks of write and send (hook.cpp:371-410, 607-642): they call on until everything is taken or
    a call takes nothing. The kernel is an oracle: its k-th call, offered n bytes, answers kernel(k, n). */
module Transfer {
  type Byte = bv8
  type Kernel = (nat, nat) -> int

  /** A call takes at most what it is offered; an answer below 1 takes nothing. */
  ghost predicate TakesOffered(kernel: Kernel) {
    forall k, n :: kernel(k, n) <= n
  }

  function Taken(answer: int): nat {
    if answer > 0 then answer else 0
  }

  function Sum(answers: seq<int>): nat {
    if answers == [] then 0 else Sum(answers[..|answers| - 1]) + Taken(answers[|answers| - 1])
  }

  /** Every call was offered all that the calls before it had left. */
  ghost predicate Offered(answers: seq<int>, total: nat, kernel: Kernel) {
    forall k :: 0 <= k < |answers| ==>
      Sum(answers[..k]) <= total && answers[k] == kernel(k, total - Sum(answers[..k]))
  }

  function Last(answers: seq<int>): int
    requires answers != []
  {
    answers[|answers| - 1]
  }

  lemma SumMore(answers: seq<int>, answer: int)
    ensures Sum(answers + [answer]) == Sum(answers) + Taken(answer)
  {
    assert (answers + [answer])[..|answers|] == answers;
  }

  lemma OneMore(answers: seq<int>, total: nat, kernel: Kernel, answer: int)
    requires Offered(answers, total, kernel) && Sum(answers) <= total && answer == kernel(|answers|, total - Sum(answers))
    ensures Offered(answers + [answer], total, kernel) && Sum(answers + [answer]) == Sum(answers) + Taken(answer)
  {
    hide Sum, Taken;
    SumMore(answers, answer);
    var r := answers + [answer];
    assert r[..|answers|] == answers;
    forall k | 0 <= k < |r| ensures Sum(r[..k]) <= total && r[k] == kernel(k, total - Sum(r[..k])) {
      if k < |answers| {
        assert r[..k] == answers[..k];
      }
    }
  }

  lemma FirstCall(buf: seq<Byte>, kernel: Kernel)
    requires TakesOffered(kernel)
    ensures var answers := [kernel(0, |buf|)];
            Offered(answers, |buf|, kernel) && Sum(answers) == Taken(kernel(0, |buf|)) <= |buf|
  {
    OneMore([], |buf|, kernel, kernel(0, |buf|));
    assert [] + [kernel(0, |buf|)] == [kernel(0, |buf|)];
  }

  lemma PrefixGrows(buf: seq<Byte>, n: nat, more: nat)
    requires n + more <= |buf|
    ensures buf[..n] + buf[n..][..more] == buf[..n + more]
  {
  }

  /** All calls but perhaps the first and the last took something. */
  ghost predicate Progress(answers: seq<int>) {
    forall k :: 1 <= k < |answers| - 1 ==> answers[k] > 0
  }

  /** What both hooks promise of the bytes the kernel took, the answers of its calls, and the result:
      the bytes are a prefix of the buffer, each once and in order; a positive result is their number;
      a result below the request means that the last call took nothing. */
  ghost predicate Delivered(buf: seq<Byte>, kernel: Kernel, ret: int, stream: seq<Byte>, answers: seq<int>) {
    && answers != [] && Offered(answers, |buf|, kernel) && Progress(answers)
    && Sum(answers) <= |buf| && stream == buf[..Sum(answers)]
    && ret == (if Sum(answers) > 0 then Sum(answers) else Last(answers))
    && (Sum(answers) < |buf| ==> Last(answers) <= 0) && (buf != [] && Last(answers) <= 0 ==> Sum(answers) < |buf|)
  }

  /** write. direct says that the hook is off or the descriptor does not block. */
  method write(buf: seq<Byte>, direct: bool, kernel: Kernel) returns (ret: int, stream: seq<Byte>, answers: seq<int>)
    requires TakesOffered(kernel)
    ensures direct ==> ret == kernel(0, |buf|) && answers == [ret] && stream == buf[..Taken(ret)]
    ensures !direct ==> Delivered(buf, kernel, ret, stream, answers)
    ensures |answers| > 1 ==> answers[0] > 0
  {
    hide Sum, Offered;
    ret := kernel(0, |buf|);
    answers, stream := [ret], buf[..Taken(ret)];
    FirstCall(buf, kernel);
    if direct || ret <= 0 {
      return;
    }
    var wrotelen := ret;
    while wrotelen < |buf|
      invariant 0 < wrotelen <= |buf| && wrotelen == Sum(answers)
      invariant answers != [] && Last(answers) == ret > 0 && answers[0] > 0
      invariant Offered(answers, |buf|, kernel) && stream == buf[..wrotelen]
      invariant forall k :: 1 <= k < |answers| ==> answers[k] > 0
    {
      ret := kernel(|answers|, |buf| - wrotelen);
      OneMore(answers, |buf|, kernel, ret);
      PrefixGrows(buf, wrotelen, Taken(ret));
      answers := answers + [ret];
      stream := stream + buf[wrotelen..][..Taken(ret)];
      if ret <= 0 {
        break;
      }
      wrotelen := wrotelen + ret;
    }
    return wrotelen, stream, answers;
  }

  /** send: unlike write it goes on after a first call that failed, but not after one that answered 0. */
  method send(buf: seq<Byte>, direct: bool, kernel: Kernel) returns (ret: int, stream: seq<Byte>, answers: seq<int>)
    requires TakesOffered(kernel)
    ensures direct ==> ret == kernel(0, |buf|) && answers == [ret] && stream == buf[..Taken(ret)]
    ensures !direct ==> Delivered(buf, kernel, ret, stream, answers)
    ensures !direct && buf != [] && kernel(0, |buf|) < 0 ==> |answers| > 1
    ensures |answers| > 1 ==> answers[0] != 0
  {
    hide Sum, Offered;
    var writeret := kernel(0, |buf|);
    answers, stream := [writeret], buf[..Taken(writeret)];
    FirstCall(buf, kernel);
    if direct || writeret == 0 {
      return writeret, stream, answers;
    }
    var wrotelen := 0;
    if writeret > 0 {
      wrotelen := writeret;
    }
    while wrotelen < |buf|
      invariant 0 <= wrotelen <= |buf| && wrotelen == Sum(answers)
      invariant answers != [] && Last(answers) == writeret && answers[0] != 0
      invariant |answers| > 1 ==> writeret > 0
      invariant |answers| == 1 ==> writeret == kernel(0, |buf|)
      invariant writeret > 0 <==> wrotelen > 0
      invariant Offered(answers, |buf|, kernel) && stream == buf[..wrotelen]
      invariant forall k :: 1 <= k < |answers| ==> answers[k] > 0
    {
      writeret := kernel(|answers|, |buf| - wrotelen);
      OneMore(answers, |buf|, kernel, writeret);
      PrefixGrows(buf, wrotelen, Taken(writeret));
      answers := answers + [writeret];
      stream := stream + buf[wrotelen..][..Taken(writeret)];
      if writeret <= 0 {
        break;
      }
      wrotelen := wrotelen + writeret;
    }
    if writeret <= 0 && wrotelen == 0 {
      return writeret, stream, answers;
    }
    return wrotelen, stream, answers;
  }

  /** Everything is sent exactly when every retry made progress, and the result says so. */
  lemma AllSentIff(buf: seq<Byte>, kernel: Kernel, ret: int, stream: seq<Byte>, answers: seq<int>)
    requires Delivered(buf, kernel, ret, stream, answers) && buf != []
    ensures stream == buf <==> Last(answers) > 0
    ensures stream == buf <==> ret == |buf|
  {
  }

  /** A hook reports failure exactly when no call took anything. */
  lemma {:induction false} SumIsPositive(answers: seq<int>)
    requires answers != []
    ensures Sum(answers) == 0 <==> forall k :: 0 <= k < |answers| ==> answers[k] <= 0
  {
    var n := |answers| - 1;
    assert forall k :: 0 <= k < n ==> answers[..n][k] == answers[k];
    if n > 0 {
      SumIsPositive(answers[..n]);
    }
  }
}
