/** A chunk written by repeated calls that are each offered the chunk from its head: the write
    loop of copyFromSharedMemory, and, spread over poll rounds, a relay slot of the pipeline. */
module HeadWrites {
  import opened Kernel

  /** The kernel never takes more than a buffer of `n` bytes holds. */
  predicate Answers(n: nat, answers: seq<Io>) {
    forall i :: 0 <= i < |answers| && answers[i].Count? ==> answers[i].n <= n
  }

  /** The bytes that reach the other side once `total` bytes have been accounted for. */
  function Emitted(buf: seq<byte>, total: nat, answers: seq<Io>): (out: seq<byte>)
    requires Answers(|buf|, answers)
    decreases |answers|
  {
    if total >= |buf| || answers == [] || answers[0].Fail? then []
    else buf[..answers[0].n] + Emitted(buf, total + answers[0].n, answers[1..])
  }

  /** The calls account for all `n` bytes and none of them fails. */
  predicate Completes(n: nat, total: nat, answers: seq<Io>)
    decreases |answers|
  {
    total >= n || (answers != [] && answers[0].Count? && Completes(n, total + answers[0].n, answers[1..]))
  }

  /** What one more answer does to what is still to come. */
  lemma NextAnswer(buf: seq<byte>, answers: seq<Io>, i: nat, total: nat)
    requires Answers(|buf|, answers) && i < |answers| && answers[i].Count? && total < |buf|
    ensures var n := answers[i].n;
            && Emitted(buf, total, answers[i..]) == buf[..n] + Emitted(buf, total + n, answers[i + 1..])
            && Completes(|buf|, total, answers[i..]) == Completes(|buf|, total + n, answers[i + 1..])
            && answers[..i + 1] == answers[..i] + [answers[i]]
  {
    assert answers[i..][1..] == answers[i + 1..];
  }

  /** The loop of copyFromSharedMemory, with the kernel's answers given in advance; `None` says
      that the loop is still at work when they are used up. */
  method WriteBuffer(buf: seq<byte>, answers: seq<Io>) returns (rc: Option<int>, out: seq<byte>)
    requires Answers(|buf|, answers)
    ensures out == Emitted(buf, 0, answers)
    ensures rc == Some(0) <==> Completes(|buf|, 0, answers)
    ensures rc == Some(0) ==> |out| >= |buf|
    ensures rc == None ==> |out| < |buf| && Fail !in answers
    ensures rc.Some? && rc != Some(0) ==> rc == Some(-1) && Fail in answers
  {
    var total, i := 0, 0;
    out := [];
    while total < |buf|
      invariant 0 <= i <= |answers|
      invariant |out| == total
      invariant Fail !in answers[..i]
      invariant out + Emitted(buf, total, answers[i..]) == Emitted(buf, 0, answers)
      invariant Completes(|buf|, 0, answers) == Completes(|buf|, total, answers[i..])
      decreases |answers| - i
    {
      if i == |answers| {
        return None, out;
      }
      if answers[i].Fail? {
        return Some(-1), out;
      }
      var n := answers[i].n;
      NextAnswer(buf, answers, i, total);
      out := out + buf[..n];
      total := total + n;
      i := i + 1;
    }
    return Some(0), out;
  }

  /** The first answer that took anything. */
  function FirstProgress(answers: seq<Io>): nat {
    if answers == [] || answers[0].Fail? then 0
    else if answers[0].n > 0 then answers[0].n
    else FirstProgress(answers[1..])
  }

  lemma {:induction false} WholeWrite(buf: seq<byte>, answers: seq<Io>)
    requires Answers(|buf|, answers) && buf != [] && FirstProgress(answers) == |buf|
    ensures Emitted(buf, 0, answers) == buf
  {
    if answers[0].n == 0 {
      WholeWrite(buf, answers[1..]);
    }
  }

  /** Some call after the first `total` bytes starts again with the head of the buffer. */
  lemma {:induction false} RestartsAtHead(buf: seq<byte>, total: nat, answers: seq<Io>)
    requires Answers(|buf|, answers) && total < |buf| && Completes(|buf|, total, answers)
    ensures Emitted(buf, total, answers) != [] && Emitted(buf, total, answers)[0] == buf[0]
  {
    if answers[0].n == 0 {
      RestartsAtHead(buf, total, answers[1..]);
    }
  }

  lemma {:induction false} SplitWrite(buf: seq<byte>, answers: seq<Io>)
    requires Answers(|buf|, answers) && buf != [] && Completes(|buf|, 0, answers)
    requires FirstProgress(answers) < |buf|
    ensures var k := FirstProgress(answers);
            0 < k < |Emitted(buf, 0, answers)| && Emitted(buf, 0, answers)[k] == buf[0]
  {
    if answers[0].n == 0 {
      SplitWrite(buf, answers[1..]);
    } else {
      RestartsAtHead(buf, answers[0].n, answers[1..]);
    }
  }

  /** A completed sequence of writes delivers every possible chunk of `n` bytes intact exactly
      when the first call that takes anything takes everything. */
  lemma IntactIffWholeWrite(n: nat, answers: seq<Io>)
    requires n > 0 && Answers(n, answers) && Completes(n, 0, answers)
    ensures (forall buf: seq<byte> :: |buf| == n ==> Emitted(buf, 0, answers) == buf)
       <==> FirstProgress(answers) == n
  {
    if FirstProgress(answers) == n {
      forall buf: seq<byte> | |buf| == n
        ensures Emitted(buf, 0, answers) == buf
      {
        WholeWrite(buf, answers);
      }
    } else {
      var buf: seq<byte> := seq(n, i => if i == 0 then 1 else 0);
      FirstProgressBound(n, answers);
      SplitWrite(buf, answers);
      assert Emitted(buf, 0, answers) != buf;
    }
  }

  lemma {:induction false} FirstProgressBound(n: nat, answers: seq<Io>)
    requires Answers(n, answers)
    ensures FirstProgress(answers) <= n
  {
    if answers != [] && answers[0].Count? && answers[0].n == 0 {
      FirstProgressBound(n, answers[1..]);
    }
  }
}
