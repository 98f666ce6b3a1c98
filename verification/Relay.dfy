/** The parent's relay between the stages of the pipeline.  Slot `i` copies from child `i` to
    child `i+1`; which of its two descriptors `poll` looks at is encoded in their signs. */
module Relay {
  import opened Counting
  import opened Kernel
  import HeadWrites

  /** What the kernel can report for the two descriptors of a slot, and how it answers a read and
      a write. */
  datatype Event = Event(pollIn: bool, pollHup: bool, pollOut: bool, pollErr: bool, read: Read, write: Io)
  datatype Read = ReadFails | Got(bytes: seq<byte>)

  datatype Status = Open | EndOfInput | OutputGone

  /** A slot: the two `fd` fields, `num_available`, the bytes the last read put into its buffer of
      `size` bytes.  The rest is history: how it was closed, all bytes read and written, and
      whether every write took everything offered. */
  datatype Slot = Slot(rfd: int, wfd: int, available: nat, data: seq<byte>, size: nat,
                       status: Status, got: seq<byte>, sent: seq<byte>, whole: bool)

  /** Whether `main` goes on with the slot, has found that it is finished, or returns -1. */
  datatype Outcome = Continue | Finish | Fails

  function Abs(x: int): int { if x < 0 then -x else x }

  function Take(bytes: seq<byte>, max: nat): seq<byte> { if |bytes| <= max then bytes else bytes[..max] }

  predicate CanRead(s: Slot, e: Event) { s.status.Open? && s.rfd > 0 && e.pollIn }
  predicate CanWrite(s: Slot, e: Event) { s.status.Open? && s.wfd > 0 && e.pollOut }
  predicate HungUp(s: Slot, e: Event) { s.status.Open? && s.rfd > 0 && e.pollHup && !CanRead(s, e) }
  predicate Broken(s: Slot, e: Event) { s.status.Open? && s.wfd > 0 && e.pollErr }

  function Close(s: Slot, why: Status): Slot { s.(rfd := Abs(s.rfd), wfd := Abs(s.wfd), status := why) }

  /** The read of one pass: at most the whole buffer, and the arms change sides. */
  function ReadSlot(s: Slot, bytes: seq<byte>): Slot {
    s.(available := |bytes|, data := bytes, got := s.got + bytes, rfd := -s.rfd, wfd := -s.wfd)
  }

  /** The write of one pass: always from the head of the buffer. */
  function WriteSlot(s: Slot, k: nat): Slot
    requires k <= s.available <= |s.data|
  {
    var s' := s.(available := s.available - k, sent := s.sent + s.data[..k], whole := s.whole && k == s.available);
    if s'.available == 0 then s'.(rfd := -s.rfd, wfd := -s.wfd) else s'
  }

  function ReadPart(s: Slot, canRead: bool, e: Event): (Slot, Outcome) {
    if s.available != 0 || !canRead then (s, Continue)
    else if e.read.ReadFails? then (s, Fails)
    else
      var bytes := Take(e.read.bytes, s.size);
      if bytes == [] then (s, Finish) else (ReadSlot(s, bytes), Continue)
  }

  function WritePart(s: Slot, canWrite: bool, e: Event): (Slot, Outcome)
    requires s.available <= |s.data|
  {
    if s.available == 0 || !canWrite then (s, Continue)
    else if e.write.Fail? then (s, Fails)
    else
      var k := if e.write.n <= s.available then e.write.n else s.available;
      if k == 0 then (s, Finish) else (WriteSlot(s, k), Continue)
  }

  /** One pass over a slot, as a function; descriptors with a negative sign, or already closed,
      report nothing. */
  function Pass(s: Slot, e: Event): (Slot, Outcome)
    requires s.available <= |s.data|
  {
    var (s1, o1) := ReadPart(s, CanRead(s, e), e);
    if o1.Fails? then (s1, Fails)
    else
      var (s2, o2) := WritePart(s1, CanWrite(s, e), e);
      if o2.Fails? then (s2, Fails)
      else if o1.Finish? || o2.Finish? || HungUp(s, e) || Broken(s, e) then
        (Close(s2, if o1.Finish? || HungUp(s, e) then EndOfInput else OutputGone), Finish)
      else (s2, Continue)
  }

  /** For an open slot exactly one descriptor is armed, the write side exactly when bytes are
      waiting; every byte read is written or waiting; a slot closed at the end of its input has
      nothing left over; with whole writes the contents agree too. */
  predicate SlotOk(s: Slot) {
    && s.rfd != 0 && s.wfd != 0
    && (if s.status.Open? then (s.rfd > 0) != (s.wfd > 0) && (s.wfd > 0 <==> s.available > 0)
        else s.rfd > 0 && s.wfd > 0)
    && s.available <= |s.data| <= s.size
    && |s.got| == |s.sent| + s.available
    && (s.status.EndOfInput? ==> s.available == 0)
    && (s.whole ==> s.got == s.sent + if s.available > 0 then s.data else [])
    && (s.whole && s.available > 0 ==> s.available == |s.data|)
  }

  /** What both parts of a pass leave as it was. */
  predicate SameSlot(s: Slot, s': Slot) {
    s'.status == s.status && s'.size == s.size && Abs(s'.rfd) == Abs(s.rfd) && Abs(s'.wfd) == Abs(s.wfd)
  }

  lemma ReadPartKeeps(s: Slot, canRead: bool, e: Event)
    requires SlotOk(s) && (canRead ==> s.status.Open? && s.rfd > 0)
    ensures var (s', o) := ReadPart(s, canRead, e);
            && SlotOk(s') && SameSlot(s, s')
            && (!canRead ==> s' == s && o == Continue)
            && (o.Finish? ==> s' == s && s.available == 0)
  {}

  lemma WritePartKeeps(s: Slot, canWrite: bool, e: Event)
    requires SlotOk(s) && (canWrite ==> s.status.Open?)
    ensures var (s', o) := WritePart(s, canWrite, e);
            && SlotOk(s') && SameSlot(s, s')
            && (!canWrite || s.available == 0 ==> s' == s && o == Continue)
  {}

  lemma CloseKeeps(s: Slot, why: Status)
    requires SlotOk(s) && !why.Open? && (why.EndOfInput? ==> s.available == 0)
    ensures SlotOk(Close(s, why)) && SameSlot(s, Close(s, why).(status := s.status))
  {}

  lemma PassKeeps(s: Slot, e: Event)
    requires SlotOk(s)
    ensures var (s', o) := Pass(s, e);
            && SlotOk(s')
            && s'.size == s.size && Abs(s'.rfd) == Abs(s.rfd) && Abs(s'.wfd) == Abs(s.wfd)
            && (!s.status.Open? ==> s' == s && o == Continue)
            && (s.status.Open? && !s'.status.Open? <==> o == Finish)
  {
    var (s1, o1) := ReadPart(s, CanRead(s, e), e);
    ReadPartKeeps(s, CanRead(s, e), e);
    var (s2, o2) := WritePart(s1, CanWrite(s, e), e);
    WritePartKeeps(s1, CanWrite(s, e), e);
    if s2.available == 0 { CloseKeeps(s2, EndOfInput); }
    CloseKeeps(s2, OutputGone);
  }

  // ---------- what a pass does, from the event bits and the signs alone ----------

  predicate Readable(s: Slot, e: Event) { s.rfd > 0 && e.pollIn }

  predicate Writable(s: Slot, e: Event) { s.wfd > 0 && e.pollOut }

  /** `main` returns -1 exactly when a call that is due fails. */
  lemma PassFails(s: Slot, e: Event)
    requires SlotOk(s) && s.status.Open?
    ensures Pass(s, e).1 == Fails <==>
              (Readable(s, e) && e.read.ReadFails?) || (Writable(s, e) && e.write.Fail?)
  {}

  /** Otherwise the slot is finished exactly when its armed side says that it is over: an empty read,
      a hang-up with nothing to read, an error, or a write that takes nothing. */
  lemma PassFinishes(s: Slot, e: Event)
    requires SlotOk(s) && s.status.Open? && Pass(s, e).1 != Fails
    ensures Pass(s, e).1 == Finish <==>
              || (s.rfd > 0 && e.pollIn && (e.read.bytes == [] || s.size == 0))
              || (s.rfd > 0 && e.pollHup && !e.pollIn)
              || (s.wfd > 0 && e.pollOut && e.write.n == 0)
              || (s.wfd > 0 && e.pollErr)
    ensures Pass(s, e).1 == Finish ==> Pass(s, e).0.status == if s.rfd > 0 then EndOfInput else OutputGone
  {}

  /** A readable slot takes all the kernel gives, up to the size of its buffer, and changes sides. */
  lemma PassReads(s: Slot, e: Event)
    requires SlotOk(s) && s.status.Open? && Readable(s, e) && e.read.Got? && e.read.bytes != [] && s.size > 0
    ensures var bytes := if |e.read.bytes| <= s.size then e.read.bytes else e.read.bytes[..s.size];
            Pass(s, e) == (s.(got := s.got + bytes, data := bytes, available := |bytes|, rfd := -s.rfd, wfd := -s.wfd),
                           Continue)
  {}

  /** A writable slot sends from the head of its buffer what the kernel takes of the bytes waiting,
      and changes sides when none is left. */
  lemma PassWrites(s: Slot, e: Event)
    requires SlotOk(s) && s.status.Open? && Writable(s, e) && e.write.Count? && e.write.n > 0
    ensures var s', k := Pass(s, e).0, Min(e.write.n, s.available);
            && s'.sent == s.sent + s.data[..k] && s'.available == s.available - k
            && s'.got == s.got && s'.data == s.data
            && (s'.whole <==> s.whole && k == s.available)
            && (!e.pollErr ==> if k == s.available then s'.rfd == -s.rfd && s'.wfd == -s.wfd
                               else s'.rfd == s.rfd && s'.wfd == s.wfd)
  {}

  /** Any other pass moves no byte. */
  lemma PassIdles(s: Slot, e: Event)
    requires SlotOk(s)
    requires s.status.Open? ==> !Readable(s, e) && (!Writable(s, e) || e.write == Count(0))
    ensures var s' := Pass(s, e).0;
            && s'.sent == s.sent && s'.got == s.got && s'.available == s.available
            && s'.data == s.data && s'.whole == s.whole
  {}

  /** The slot after passes with the events `es`: every sequence of poll results, reads and writes
      keeps it in order, and once closed it is never touched again, so its descriptors are closed
      once. */
  function Passes(s: Slot, es: seq<Event>): (r: Slot)
    requires SlotOk(s)
    ensures SlotOk(r)
    ensures !s.status.Open? ==> r == s
    decreases |es|
  {
    if es == [] then s
    else
      var before := Passes(s, es[..|es| - 1]);
      PassKeeps(before, es[|es| - 1]);
      Pass(before, es[|es| - 1]).0
  }

  /** A slot before its first pass. */
  function Fresh(rfd: int, wfd: int, size: nat): Slot { Slot(rfd, -wfd, 0, [], size, Open, [], [], true) }

  /** Along the passes, every write that takes anything takes all that is waiting. */
  predicate WholeWrites(s: Slot, es: seq<Event>)
    requires SlotOk(s)
    decreases |es|
  {
    es == [] ||
      var before, e := Passes(s, es[..|es| - 1]), es[|es| - 1];
      && WholeWrites(s, es[..|es| - 1])
      && (before.status.Open? && Writable(before, e) && e.write.Count? ==>
            e.write.n == 0 || e.write.n >= before.available)
  }

  lemma {:induction false} WholeIff(s: Slot, es: seq<Event>)
    requires SlotOk(s)
    ensures Passes(s, es).whole <==> s.whole && WholeWrites(s, es)
    decreases |es|
  {
    if es != [] {
      var before, e := Passes(s, es[..|es| - 1]), es[|es| - 1];
      WholeIff(s, es[..|es| - 1]);
      PassWhole(before, e);
    }
  }

  lemma PassWhole(s: Slot, e: Event)
    requires SlotOk(s)
    ensures Pass(s, e).0.whole <==>
              && s.whole
              && (s.status.Open? && Writable(s, e) && e.write.Count? ==> e.write.n == 0 || e.write.n >= s.available)
  {}

  /** What passes on a fresh slot: a slot closed at the end of its input has passed on as many
      bytes as it got, and with whole writes the same bytes. */
  lemma EndOfInputPassedOn(rfd: int, wfd: int, size: nat, es: seq<Event>)
    requires rfd > 0 && wfd > 0
    ensures SlotOk(Fresh(rfd, wfd, size))
    ensures var s := Passes(Fresh(rfd, wfd, size), es);
            && |s.sent| <= |s.got|
            && (WholeWrites(Fresh(rfd, wfd, size), es) ==> s.sent <= s.got)
            && (s.status.EndOfInput? ==>
                  |s.sent| == |s.got| && (WholeWrites(Fresh(rfd, wfd, size), es) ==> s.sent == s.got))
  {
    assert SlotOk(Passes(Fresh(rfd, wfd, size), es));
    WholeIff(Fresh(rfd, wfd, size), es);
  }

  // ---------- a chunk that takes several writes ----------

  /** The slot after writes that took `ks` bytes. */
  function Writes(s: Slot, ks: seq<nat>): Slot
    requires Sum(ks) <= s.available <= |s.data|
    decreases |ks|
  {
    if ks == [] then s else Writes(WriteSlot(s, ks[0]), ks[1..])
  }

  function Counts(ks: seq<nat>): (r: seq<Io>)
    ensures |r| == |ks| && forall i :: 0 <= i < |ks| ==> r[i] == Count(ks[i])
  {
    seq(|ks|, i requires 0 <= i < |ks| => Count(ks[i]))
  }

  lemma {:induction false} TotalBounds(ks: seq<nat>, n: nat)
    requires Sum(ks) <= n
    ensures HeadWrites.Answers(n, Counts(ks))
    decreases |ks|
  {
    if ks != [] {
      TotalBounds(ks[1..], n);
      forall i | 0 <= i < |ks|
        ensures ks[i] <= n
      {
        if i > 0 { assert Counts(ks[1..])[i - 1].n <= n; }
      }
    }
  }

  /** As `offset_buffers` stays at the head of the buffer, the slot sends what the repeated writes
      of `HeadWrites` emit. */
  lemma {:induction false} WritesEmit(s: Slot, ks: seq<nat>)
    requires Sum(ks) <= s.available <= |s.data|
    ensures HeadWrites.Answers(|s.data|, Counts(ks))
    ensures Writes(s, ks).sent == s.sent + HeadWrites.Emitted(s.data, |s.data| - s.available, Counts(ks))
    decreases |ks|
  {
    TotalBounds(ks, |s.data|);
    if ks != [] {
      WritesEmit(WriteSlot(s, ks[0]), ks[1..]);
      EmitNext(s.data, |s.data| - s.available, ks);
    }
  }

  lemma EmitNext(buf: seq<byte>, total: nat, ks: seq<nat>)
    requires ks != [] && total + Sum(ks) <= |buf|
    ensures HeadWrites.Answers(|buf|, Counts(ks)) && HeadWrites.Answers(|buf|, Counts(ks[1..]))
    ensures HeadWrites.Emitted(buf, total, Counts(ks))
         == buf[..ks[0]] + HeadWrites.Emitted(buf, total + ks[0], Counts(ks[1..]))
  {
    TotalBounds(ks, |buf|);
    TotalBounds(ks[1..], |buf|);
    assert Counts(ks)[1..] == Counts(ks[1..]);
    if total == |buf| { NothingLeft(ks); }
  }

  lemma {:induction false} NothingLeft(ks: seq<nat>)
    requires Sum(ks) == 0
    ensures forall i :: 0 <= i < |ks| ==> ks[i] == 0
  {
    if ks != [] { NothingLeft(ks[1..]); }
  }

  /** The relay passes every chunk of `n` bytes on intact exactly when the first write that takes
      anything takes all of it. */
  lemma RelayIntactIffWholeWrite(s: Slot, ks: seq<nat>)
    requires s.available == Sum(ks) > 0
    ensures HeadWrites.Answers(s.available, Counts(ks))
    ensures (forall buf: seq<byte> :: |buf| == s.available ==> Writes(s.(data := buf), ks).sent == s.sent + buf)
       <==> HeadWrites.FirstProgress(Counts(ks)) == s.available
  {
    var n := s.available;
    TotalBounds(ks, n);
    Completing(ks, 0, n);
    HeadWrites.IntactIffWholeWrite(n, Counts(ks));
    forall buf: seq<byte> | |buf| == n
      ensures Writes(s.(data := buf), ks).sent == s.sent + HeadWrites.Emitted(buf, 0, Counts(ks))
    {
      WritesEmit(s.(data := buf), ks);
    }
    forall buf: seq<byte> | |buf| == n
      ensures Writes(s.(data := buf), ks).sent == s.sent + buf <==> HeadWrites.Emitted(buf, 0, Counts(ks)) == buf
    {
      Cancel(s.sent, HeadWrites.Emitted(buf, 0, Counts(ks)), buf);
    }
  }

  lemma Cancel(p: seq<byte>, a: seq<byte>, b: seq<byte>)
    ensures p + a == p + b <==> a == b
  {
    assert (p + a)[|p|..] == a && (p + b)[|p|..] == b;
  }

  lemma {:induction false} Completing(ks: seq<nat>, total: nat, n: nat)
    requires total + Sum(ks) == n
    ensures HeadWrites.Completes(n, total, Counts(ks))
    decreases |ks|
  {
    if ks != [] {
      Completing(ks[1..], total + ks[0], n);
      assert Counts(ks)[1..] == Counts(ks[1..]);
    }
  }

  // ---------- the poll loop ----------

  /** The events of slot `i` in the first `count` rounds. */
  function Column(rounds: seq<seq<Event>>, i: nat, count: nat): seq<Event>
    requires count <= |rounds| && forall r :: 0 <= r < count ==> i < |rounds[r]|
  {
    seq(count, r requires 0 <= r < count => rounds[r][i])
  }

  /** The arrays of `main`; `closed` stands for the kernel's table of open descriptors. */
  class Relay {
    const fds: array<int>
    const numAvailable: array<nat>
    const buffers: array<seq<byte>>
    const sizes: seq<nat>
    const closed: array<bool>
    ghost var slots: seq<Slot>

    ghost predicate Shape()
      reads this
    {
      && fds.Length == 2 * |slots|
      && numAvailable.Length == buffers.Length == closed.Length == |sizes| == |slots|
    }

    /** Slot `i` of the arrays is `slots[i]`, and in order. */
    ghost predicate Holds(i: nat)
      requires Shape() && i < |slots|
      reads this, fds, numAvailable, buffers, closed
    {
      && fds[2 * i] == slots[i].rfd && fds[2 * i + 1] == slots[i].wfd
      && numAvailable[i] == slots[i].available
      && buffers[i] == slots[i].data && sizes[i] == slots[i].size
      && closed[i] == !slots[i].status.Open?
      && SlotOk(slots[i])
    }

    ghost predicate Valid()
      reads this, fds, numAvailable, buffers, closed
    {
      Shape() && forall i :: 0 <= i < |slots| ==> Holds(i)
    }

    constructor (readFds: seq<int>, writeFds: seq<int>, sizes: seq<nat>)
      requires |readFds| == |writeFds| == |sizes|
      requires forall i :: 0 <= i < |sizes| ==> readFds[i] > 0 && writeFds[i] > 0
      ensures Valid() && fresh(fds) && fresh(numAvailable) && fresh(buffers) && fresh(closed)
      ensures slots == seq(|sizes|, i requires 0 <= i < |sizes| => Fresh(readFds[i], writeFds[i], sizes[i]))
    {
      var n := |sizes|;
      this.sizes := sizes;
      fds := new int[2 * n](k requires 0 <= k < 2 * n => if k % 2 == 0 then readFds[k / 2] else -writeFds[k / 2]);
      numAvailable := new nat[n](_ => 0);
      buffers := new seq<byte>[n](_ => []);
      closed := new bool[n](_ => false);
      slots := seq(|sizes|, i requires 0 <= i < |sizes| => Fresh(readFds[i], writeFds[i], sizes[i]));
      new;
      forall i | 0 <= i < |slots|
        ensures Holds(i)
      {
        assert (2 * i) / 2 == i && (2 * i + 1) / 2 == i && (2 * i) % 2 == 0 && (2 * i + 1) % 2 == 1;
      }
    }

    method ReadSide(i: nat, canRead: bool, e: Event) returns (o: Outcome)
      requires Valid() && i < |slots| && Holds(i)
      requires canRead ==> slots[i].status.Open? && slots[i].rfd > 0
      modifies this`slots, fds, numAvailable, buffers
      ensures Valid()
      ensures slots == old(slots)[i := ReadPart(old(slots)[i], canRead, e).0]
      ensures o == ReadPart(old(slots)[i], canRead, e).1
    {
      o := Continue;
      if numAvailable[i] == 0 && canRead {
        if e.read.ReadFails? {
          return Fails;
        }
        var bytes := Take(e.read.bytes, sizes[i]);
        if |bytes| == 0 {
          return Finish;
        }
        buffers[i] := bytes;
        numAvailable[i] := |bytes|;
        fds[2 * i] := fds[2 * i] * -1;
        fds[2 * i + 1] := fds[2 * i + 1] * -1;
        slots := slots[i := ReadSlot(slots[i], bytes)];
        forall j | 0 <= j < |slots|
          ensures Holds(j)
        {
          if j != i { assert old(Holds(j)); }
        }
      }
    }

    method WriteSide(i: nat, canWrite: bool, e: Event) returns (o: Outcome)
      requires Valid() && i < |slots| && Holds(i)
      requires canWrite && slots[i].available > 0 ==> slots[i].status.Open?
      modifies this`slots, fds, numAvailable
      ensures Valid()
      ensures slots == old(slots)[i := WritePart(old(slots)[i], canWrite, e).0]
      ensures o == WritePart(old(slots)[i], canWrite, e).1
    {
      o := Continue;
      if numAvailable[i] != 0 && canWrite {
        if e.write.Fail? {
          return Fails;
        }
        var written := if e.write.n <= numAvailable[i] then e.write.n else numAvailable[i];
        if written == 0 {
          return Finish;
        }
        numAvailable[i] := numAvailable[i] - written;
        if numAvailable[i] == 0 {
          fds[2 * i] := fds[2 * i] * -1;
          fds[2 * i + 1] := fds[2 * i + 1] * -1;
        }
        slots := slots[i := WriteSlot(slots[i], written)];
        forall j | 0 <= j < |slots|
          ensures Holds(j)
        {
          if j != i { assert old(Holds(j)); }
        }
      }
    }

    method CloseSlot(i: nat, ghost why: Status)
      requires Valid() && i < |slots| && Holds(i)
      requires why.OutputGone? || (why.EndOfInput? && slots[i].available == 0)
      modifies this`slots, fds, closed
      ensures Valid()
      ensures slots == old(slots)[i := Close(old(slots)[i], why)]
    {
      fds[2 * i] := Abs(fds[2 * i]);
      fds[2 * i + 1] := Abs(fds[2 * i + 1]);
      closed[i] := true;
      slots := slots[i := Close(slots[i], why)];
      forall j | 0 <= j < |slots|
        ensures Holds(j)
      {
        if j != i { assert old(Holds(j)); }
      }
    }

    /** One pass of the loop body: `Some` is the value `main` returns with. */
    method ProcessSlot(i: nat, e: Event) returns (rc: Option<int>)
      requires Valid() && i < |slots| && Holds(i)
      modifies this`slots, fds, numAvailable, buffers, closed
      ensures Valid()
      ensures slots == old(slots)[i := Pass(old(slots)[i], e).0]
      ensures rc == match Pass(old(slots)[i], e).1
                    case Fails => Some(-1)
                    case Finish => if i == |slots| - 1 then Some(0) else None
                    case Continue => None
    {
      var r, w := 2 * i, 2 * i + 1;
      var canRead := fds[r] > 0 && !closed[i] && e.pollIn;
      var canWrite := fds[w] > 0 && !closed[i] && e.pollOut;
      var hungUp := fds[r] > 0 && !closed[i] && e.pollHup && !canRead;
      var broken := fds[w] > 0 && !closed[i] && e.pollErr;
      var o := ReadSide(i, canRead, e);
      if o.Fails? {
        return Some(-1);
      }
      assert Holds(i);
      var o' := WriteSide(i, canWrite, e);
      if o'.Fails? {
        return Some(-1);
      }
      assert Holds(i);
      if o.Finish? || o'.Finish? || hungUp || broken {
        CloseSlot(i, if o.Finish? || hungUp then EndOfInput else OutputGone);
        return if i == |sizes| - 1 then Some(0) else None;
      }
      return None;
    }

    /** One poll result: the slots before `at` have had their pass. */
    method Round(events: seq<Event>) returns (rc: Option<int>, at: nat)
      requires Valid() && AllOk(slots) && slots != [] && |events| == |slots|
      modifies this`slots, fds, numAvailable, buffers, closed
      ensures Valid() && AllOk(slots)
      ensures if rc == None then at == |slots| else 0 < at <= |slots|
      ensures slots == AfterPasses(old(slots), events, at)
      ensures rc == Some(0) ==> at == |slots| && !slots[at - 1].status.Open?
      ensures RoundEnds(old(slots), events, rc, at)
    {
      ghost var was := slots;
      at := 0;
      PassesKeepAll(was, events, 0);
      while at < |sizes|
        invariant 0 <= at <= |slots| == |was|
        invariant Valid() && AllOk(slots)
        invariant slots == AfterPasses(was, events, at)
        invariant GoesOn(was, events, at)
      {
        assert Holds(at);
        PassKeeps(was[at], events[at]);
        PassesKeepAll(was, events, at + 1);
        rc := ProcessSlot(at, events[at]);
        at := at + 1;
        if rc.Some? {
          return;
        }
      }
      rc := None;
    }

    /** The poll loop over `rounds` of events.  It stops with the value `main` returns, after slot
        `at - 1` of round `done`, or when the rounds are used up; every slot has then seen exactly
        its own events, in order. */
    method PollLoop(rounds: seq<seq<Event>>) returns (rc: Option<int>, done: nat, at: nat)
      requires Valid() && AllOk(slots) && slots != [] && Wide(rounds, |slots|)
      modifies this`slots, fds, numAvailable, buffers, closed
      ensures Valid()
      ensures if rc == None then done == |rounds| && at == 0 else done < |rounds| && 0 < at <= |slots|
      ensures slots == AfterRounds(old(slots), rounds, done, at)
      ensures rc == Some(0) ==> !slots[|slots| - 1].status.Open?
      ensures AllGoOn(old(slots), rounds, done)
      ensures rc.Some? ==> RoundEnds(AfterRounds(old(slots), rounds, done, 0), rounds[done], rc, at)
    {
      ghost var was := slots;
      rc, done, at := None, 0, 0;
      AtStart(was, rounds);
      while done < |rounds|
        invariant 0 <= done <= |rounds|
        invariant Valid() && AllOk(slots) && |slots| == |was|
        invariant rc == None && at == 0
        invariant slots == AfterRounds(was, rounds, done, 0)
        invariant AllGoOn(was, rounds, done)
      {
        rc, at := Round(rounds[done]);
        RoundExtends(was, rounds, done, at);
        if rc.Some? {
          return;
        }
        done, at := done + 1, 0;
      }
    }
  }

  /** Whether `main` returns after a pass over a slot. */
  predicate Stops(o: Outcome, last: bool) { o.Fails? || (o.Finish? && last) }

  /** Nothing stops `main` in the passes over the first `at` slots. */
  ghost predicate GoesOn(slots: seq<Slot>, events: seq<Event>, at: nat)
    requires AllOk(slots) && at <= |slots| == |events|
  {
    forall j :: 0 <= j < at ==> !Stops(Pass(slots[j], events[j]).1, j == |slots| - 1)
  }

  /** The round ends at the first pass that stops `main`, with -1 for a failed call and 0 for the
      last slot being finished; `None` if there is no such pass. */
  ghost predicate RoundEnds(slots: seq<Slot>, events: seq<Event>, rc: Option<int>, at: nat)
    requires AllOk(slots) && |slots| == |events|
  {
    if rc == None then GoesOn(slots, events, |slots|)
    else
      && 0 < at <= |slots| && GoesOn(slots, events, at - 1)
      && var o := Pass(slots[at - 1], events[at - 1]).1;
         Stops(o, at == |slots|) && rc == Some(if o.Fails? then -1 else 0)
  }

  ghost predicate AllGoOn(slots: seq<Slot>, rounds: seq<seq<Event>>, done: nat)
    requires AllOk(slots) && Wide(rounds, |slots|) && done <= |rounds|
  {
    forall r :: 0 <= r < done ==> GoesOn(AfterRounds(slots, rounds, r, 0), rounds[r], |slots|)
  }

  /** Every round has an event for each of `n` slots. */
  predicate Wide(rounds: seq<seq<Event>>, n: nat) { forall r :: 0 <= r < |rounds| ==> |rounds[r]| == n }

  ghost predicate AllOk(slots: seq<Slot>) { forall j :: 0 <= j < |slots| ==> SlotOk(slots[j]) }

  /** The slots when those before `at` have had a pass with the events of one round. */
  function AfterPasses(slots: seq<Slot>, events: seq<Event>, at: nat): (r: seq<Slot>)
    requires AllOk(slots) && |events| == |slots|
    ensures |r| == |slots|
  {
    seq(|slots|, j requires 0 <= j < |slots| => if j < at then Pass(slots[j], events[j]).0 else slots[j])
  }

  /** The slots after `done` rounds and `at` passes of the next. */
  function AfterRounds(slots: seq<Slot>, rounds: seq<seq<Event>>, done: nat, at: nat): (r: seq<Slot>)
    requires AllOk(slots) && Wide(rounds, |slots|)
    requires done < |rounds| || (done == |rounds| && at == 0)
    ensures |r| == |slots|
  {
    seq(|slots|, j requires 0 <= j < |slots| =>
      Passes(slots[j], Column(rounds, j, if j < at then done + 1 else done)))
  }

  lemma PassesKeepAll(slots: seq<Slot>, events: seq<Event>, at: nat)
    requires AllOk(slots) && |events| == |slots| && at <= |slots|
    ensures AllOk(AfterPasses(slots, events, at))
    ensures at == 0 ==> AfterPasses(slots, events, at) == slots
    ensures at > 0 ==>
              AfterPasses(slots, events, at)
              == AfterPasses(slots, events, at - 1)[at - 1 := Pass(slots[at - 1], events[at - 1]).0]
  {
    forall j | 0 <= j < |slots|
      ensures SlotOk(AfterPasses(slots, events, at)[j])
    {
      PassKeeps(slots[j], events[j]);
    }
  }

  lemma AtStart(slots: seq<Slot>, rounds: seq<seq<Event>>)
    requires AllOk(slots) && Wide(rounds, |slots|)
    ensures AfterRounds(slots, rounds, 0, 0) == slots
  {}

  lemma RoundExtends(slots: seq<Slot>, rounds: seq<seq<Event>>, done: nat, at: nat)
    requires AllOk(slots) && Wide(rounds, |slots|)
    requires done < |rounds| && at <= |slots|
    requires AllOk(AfterRounds(slots, rounds, done, 0))
    ensures AfterPasses(AfterRounds(slots, rounds, done, 0), rounds[done], at) == AfterRounds(slots, rounds, done, at)
    ensures at == |slots| ==> AfterRounds(slots, rounds, done, at) == AfterRounds(slots, rounds, done + 1, 0)
  {
    forall j | 0 <= j < |slots|
      ensures Passes(slots[j], Column(rounds, j, done + 1))
           == Pass(Passes(slots[j], Column(rounds, j, done)), rounds[done][j]).0
    {
      assert Column(rounds, j, done + 1)[..done] == Column(rounds, j, done);
    }
  }
}
