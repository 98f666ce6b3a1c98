/** GetResponses: the client splits the integral among its workers in proportion to their
    throughputs, the last one takes what is left, and the answers are added up. */
module Responses {
  import opened Arithmetic
  import opened Counting
  import opened Trapezoid
  import opened WorkDistribution
  import opened ThreadWork

  datatype Connection = Connection(socket: int, throughput: NonNegative)
  datatype Request = Request(l: real, r: real, n: nat)

  /** The return code of a worker's thread (nonzero when the thread could not be created or the
      exchange failed) and the value it got. */
  datatype Reply = Reply(r: int, ival: real)

  datatype ThreadData = ThreadData(socket: int, ireq: Request, reply: Reply)

  class Response {
    var ival: real
  }

  // ---------- the split ----------

  /** The throughput of the first `k` workers together. */
  function Throughput(cs: seq<Connection>, k: nat): NonNegative
    requires k <= |cs|
  {
    if k == 0 then 0.0 else Throughput(cs, k - 1) + cs[k - 1].throughput
  }

  function Part(t: NonNegative, total: NonNegative, n: nat): NonNegative
    requires total > 0.0
  {
    DivideNonNegative(t, total);
    TimesNonNegative(t / total, n as real);
    t / total * n as real
  }

  predicate CanSplit(cs: seq<Connection>) { |cs| > 0 && Throughput(cs, |cs|) > 0.0 }

  /** The steps given to the first `k` workers. */
  function Used(cs: seq<Connection>, n: nat, k: nat): nat
    requires CanSplit(cs) && k <= |cs|
  {
    if k == 0 then 0
    else if k == |cs| then n
    else Used(cs, n, k - 1) + Floored(Part(cs[k - 1].throughput, Throughput(cs, |cs|), n))
  }

  lemma PartAdds(s: NonNegative, t: NonNegative, total: NonNegative, n: nat)
    requires total > 0.0
    ensures Part(s + t, total, n) == Part(s, total, n) + Part(t, total, n)
  {
    DivideAdds(s, t, total);
    Scale(s / total, t / total, n as real);
  }

  lemma PartOfAll(s: NonNegative, total: NonNegative, n: nat)
    requires s <= total && total > 0.0
    ensures Part(s, total, n) <= n as real
  {
    QuotientAtMostOne(s, total);
    ScaleDown(s / total, n as real);
  }

  lemma {:induction false} UsedIsPart(cs: seq<Connection>, n: nat, k: nat)
    requires CanSplit(cs) && k < |cs|
    ensures Used(cs, n, k) as real <= Part(Throughput(cs, k), Throughput(cs, |cs|), n)
    decreases k
  {
    var total := Throughput(cs, |cs|);
    if k == 0 {
      assert Part(0.0, total, n) >= 0.0;
    } else {
      UsedIsPart(cs, n, k - 1);
      PartAdds(Throughput(cs, k - 1), cs[k - 1].throughput, total, n);
    }
  }

  lemma {:induction false} ThroughputGrows(cs: seq<Connection>, k: nat, m: nat)
    requires k <= m <= |cs|
    ensures Throughput(cs, k) <= Throughput(cs, m)
    decreases m - k
  {
    if k < m {
      ThroughputGrows(cs, k, m - 1);
    }
  }

  /** What is left for the last worker is not negative. */
  lemma {:induction false} NoUnderflow(cs: seq<Connection>, n: nat, k: nat)
    requires CanSplit(cs) && k <= |cs|
    ensures Used(cs, n, k) <= n
  {
    if k < |cs| {
      UsedIsPart(cs, n, k);
      ThroughputGrows(cs, k, |cs|);
      PartOfAll(Throughput(cs, k), Throughput(cs, |cs|), n);
    }
  }

  /** The steps of worker `i`. */
  function Given(cs: seq<Connection>, n: nat, i: nat): nat
    requires CanSplit(cs) && i < |cs|
  {
    NoUnderflow(cs, n, i);
    Used(cs, n, i + 1) - Used(cs, n, i)
  }

  /** Every worker but the last gets the whole steps of its part of the throughput. */
  lemma GivenInProportion(cs: seq<Connection>, n: nat, i: nat)
    requires CanSplit(cs) && i + 1 < |cs|
    ensures Given(cs, n, i) as real
         <= cs[i].throughput / Throughput(cs, |cs|) * n as real < (Given(cs, n, i) + 1) as real
  {}

  /** Up to worker `k` less than one step for each is left over. */
  lemma {:induction false} UsedNearPart(cs: seq<Connection>, n: nat, k: nat)
    requires CanSplit(cs) && k < |cs|
    ensures Part(Throughput(cs, k), Throughput(cs, |cs|), n) <= (Used(cs, n, k) + k) as real
    ensures k > 0 ==> Part(Throughput(cs, k), Throughput(cs, |cs|), n) < (Used(cs, n, k) + k) as real
    decreases k
  {
    var total := Throughput(cs, |cs|);
    if k == 0 {
      NothingOf(total, n);
    } else {
      UsedNearPart(cs, n, k - 1);
      PartAdds(Throughput(cs, k - 1), cs[k - 1].throughput, total, n);
    }
  }

  lemma NothingOf(total: NonNegative, n: nat)
    requires total > 0.0
    ensures Part(0.0, total, n) == 0.0
  {}

  lemma AllOf(total: NonNegative, n: nat)
    requires total > 0.0
    ensures Part(total, total, n) == n as real
  {
    Cancel(1.0, total);
  }

  lemma LastNearPart(cs: seq<Connection>, n: nat, last: nat, part: NonNegative)
    requires CanSplit(cs) && last == |cs| - 1 && part == Part(cs[last].throughput, Throughput(cs, |cs|), n)
    ensures part <= Given(cs, n, last) as real <= part + last as real
    ensures last > 0 ==> Given(cs, n, last) as real < part + last as real
  {
    var total := Throughput(cs, |cs|);
    UsedIsPart(cs, n, last);
    UsedNearPart(cs, n, last);
    PartAdds(Throughput(cs, last), cs[last].throughput, total, n);
    AllOf(total, n);
    LastIsRest(cs, n);
  }

  lemma LastIsRest(cs: seq<Connection>, n: nat)
    requires CanSplit(cs)
    ensures Given(cs, n, |cs| - 1) + Used(cs, n, |cs| - 1) == n
  {}

  /** The last worker gets its part of the throughput, and what rounding left over: less than one
      step for each of the others. */
  lemma LastInProportion(cs: seq<Connection>, n: nat)
    requires CanSplit(cs)
    ensures var last := |cs| - 1; var part := cs[last].throughput / Throughput(cs, |cs|) * n as real;
            && part <= Given(cs, n, last) as real <= part + last as real
            && (last > 0 ==> Given(cs, n, last) as real < part + last as real)
  {
    var last := |cs| - 1;
    LastNearPart(cs, n, last, Part(cs[last].throughput, Throughput(cs, |cs|), n));
  }

  /** What worker `i` is asked for: from grid point to grid point of the whole interval. */
  function RequestAt(cs: seq<Connection>, q: Request, i: nat): Request
    requires CanSplit(cs) && i < |cs|
  {
    var h := Quotient(q.r - q.l, q.n);
    Request(At(q.l, h, Used(cs, q.n, i)), At(q.l, h, Used(cs, q.n, i + 1)), Given(cs, q.n, i))
  }

  lemma NextPoint(l: real, h: real, u: nat, k: nat)
    ensures At(l, h, u + k) == At(l, h, u) + k as real * h
  {
    AtAdds(l, h, u, k);
    AtIs(At(l, h, u), h, k);
  }

  method SumThroughput(cs: seq<Connection>) returns (total: NonNegative)
    ensures total == Throughput(cs, |cs|)
  {
    total := 0.0;
    var i := 0;
    while i < |cs|
      invariant 0 <= i <= |cs|
      invariant total == Throughput(cs, i)
    {
      total := total + cs[i].throughput;
      i := i + 1;
    }
  }

  /** What the loop computes for worker `i` is its request, the next start and count follow. */
  lemma RequestComputed(cs: seq<Connection>, q: Request, i: nat, thisN: nat)
    requires CanSplit(cs) && i + 1 < |cs|
    requires thisN == Floored(Part(cs[i].throughput, Throughput(cs, |cs|), q.n))
    ensures var h, u := Quotient(q.r - q.l, q.n), Used(cs, q.n, i); var l := At(q.l, h, u);
            && Request(l, l + thisN as real * h, thisN) == RequestAt(cs, q, i)
            && Used(cs, q.n, i + 1) == u + thisN
            && At(q.l, h, u + thisN) == l + thisN as real * h
  {
    NextPoint(q.l, Quotient(q.r - q.l, q.n), Used(cs, q.n, i), thisN);
  }

  lemma LastRequest(cs: seq<Connection>, q: Request)
    requires CanSplit(cs) && q.n > 0
    ensures var h, i := Quotient(q.r - q.l, q.n), |cs| - 1; var u := Used(cs, q.n, i);
            u <= q.n && Request(At(q.l, h, u), q.r, q.n - u) == RequestAt(cs, q, i)
  {
    NoUnderflow(cs, q.n, |cs| - 1);
    GridEnds(q.l, q.r, q.n);
  }

  /** The requests of the first `k` workers. */
  ghost function Requests(cs: seq<Connection>, q: Request, k: nat): (rs: seq<Request>)
    requires CanSplit(cs) && k <= |cs|
    ensures |rs| == k
    ensures forall i :: 0 <= i < k ==> rs[i] == RequestAt(cs, q, i)
  {
    if k == 0 then [] else Requests(cs, q, k - 1) + [RequestAt(cs, q, k - 1)]
  }

  /** The requests filled in so far. */
  ghost predicate Filled(datas: seq<ThreadData>, cs: seq<Connection>, requests: seq<Request>) {
    && |requests| <= |datas| == |cs|
    && forall i :: 0 <= i < |requests| ==> datas[i].socket == cs[i].socket && datas[i].ireq == requests[i]
  }

  lemma FilledNext(datas: seq<ThreadData>, cs: seq<Connection>, requests: seq<Request>, req: Request)
    requires Filled(datas, cs, requests) && |requests| < |cs|
    ensures var i := |requests|;
            Filled(datas[i := datas[i].(socket := cs[i].socket, ireq := req)], cs, requests + [req])
  {}

  /** The request of worker `i`, from the left end `l` and the count `usedN` reached so far. */
  method NextRequest(cs: seq<Connection>, q: Request, i: nat, total: NonNegative, step: real, l: real, usedN: nat)
    returns (req: Request, used: nat)
    requires CanSplit(cs) && i + 1 < |cs| && total == Throughput(cs, |cs|)
    requires step == Quotient(q.r - q.l, q.n) && usedN == Used(cs, q.n, i) && l == At(q.l, step, usedN)
    ensures req == RequestAt(cs, q, i)
    ensures used == Used(cs, q.n, i + 1) && req.r == At(q.l, step, used)
  {
    var thisN := Floored(Part(cs[i].throughput, total, q.n));
    used := usedN + thisN;
    var r := l + thisN as real * step;
    req := Request(l, r, thisN);
    RequestComputed(cs, q, i, thisN);
  }

  /** Fills in the requests. */
  method Schedule(cs: seq<Connection>, q: Request, datas: array<ThreadData>)
    requires CanSplit(cs) && q.n > 0 && datas.Length == |cs|
    modifies datas
    ensures Filled(datas[..], cs, Requests(cs, q, |cs|))
  {
    var total := SumThroughput(cs);
    var usedN := 0;
    var step := Quotient(q.r - q.l, q.n);
    var l := q.l;
    var i := 0;
    while i < |cs| - 1
      invariant 0 <= i <= |cs| - 1
      invariant usedN == Used(cs, q.n, i) && l == At(q.l, step, usedN)
      invariant Filled(datas[..], cs, Requests(cs, q, i))
    {
      var req, used := NextRequest(cs, q, i, total, step, l, usedN);
      FilledNext(datas[..], cs, Requests(cs, q, i), req);
      datas[i] := datas[i].(socket := cs[i].socket, ireq := req);
      l := req.r;
      usedN := used;
      i := i + 1;
    }
    LastRequest(cs, q);
    FilledNext(datas[..], cs, Requests(cs, q, i), RequestAt(cs, q, i));
    datas[i] := datas[i].(socket := cs[i].socket, ireq := Request(l, q.r, q.n - usedN));
  }

  // ---------- the answers ----------

  function Answers(send: (nat, Request) -> Reply, cs: seq<Connection>, q: Request): (rs: seq<Reply>)
    requires CanSplit(cs)
    ensures |rs| == |cs|
  {
    seq(|cs|, i requires 0 <= i < |cs| => send(i, RequestAt(cs, q, i)))
  }

  ghost predicate Answered(datas: seq<ThreadData>, rs: seq<Reply>) {
    |datas| == |rs| && forall i :: 0 <= i < |rs| ==> datas[i].reply == rs[i]
  }

  /** The workers answer in any order; each exchange fills in one element. */
  method Exchange(send: (nat, Request) -> Reply, cs: seq<Connection>, q: Request, datas: array<ThreadData>)
    requires CanSplit(cs) && Filled(datas[..], cs, Requests(cs, q, |cs|))
    modifies datas
    ensures Filled(datas[..], cs, Requests(cs, q, |cs|))
    ensures Answered(datas[..], Answers(send, cs, q))
  {
    var running := Indices(|cs|);
    while running != {}
      invariant forall i: int :: i in running ==> 0 <= i < |cs|
      invariant Filled(datas[..], cs, Requests(cs, q, |cs|))
      invariant forall i :: 0 <= i < |cs| && i !in running ==> datas[i].reply == send(i, RequestAt(cs, q, i))
    {
      var i :| i in running;
      assert datas[..][i].ireq == RequestAt(cs, q, i);
      datas[i] := datas[i].(reply := send(i, datas[i].ireq));
      running := running - {i};
    }
  }

  /** The values of the first `k` answers together. */
  function Ivals(rs: seq<Reply>, k: nat): real
    requires k <= |rs|
  {
    if k == 0 then 0.0 else Ivals(rs, k - 1) + rs[k - 1].ival
  }

  /** `ret` is the code of the first failed exchange, or zero if there is none. */
  predicate FirstFailure(rs: seq<Reply>, ret: int) {
    if ret == 0 then forall i :: 0 <= i < |rs| ==> rs[i].r == 0
    else exists i :: 0 <= i < |rs| && rs[i].r == ret && forall j :: 0 <= j < i ==> rs[j].r == 0
  }

  method FindFailure(datas: array<ThreadData>, ghost rs: seq<Reply>) returns (ret: int)
    requires Answered(datas[..], rs)
    ensures FirstFailure(rs, ret)
  {
    ret := 0;
    var i := 0;
    while i < datas.Length && ret == 0
      invariant 0 <= i <= |rs|
      invariant forall j :: 0 <= j < i - 1 ==> rs[j].r == 0
      invariant if i == 0 then ret == 0 else rs[i - 1].r == ret
    {
      assert datas[..][i].reply == rs[i];
      ret := datas[i].reply.r;
      i := i + 1;
    }
  }

  method AddUp(datas: array<ThreadData>, ghost rs: seq<Reply>, out: Response)
    requires Answered(datas[..], rs)
    modifies out
    ensures out.ival == Ivals(rs, |rs|)
  {
    out.ival := 0.0;
    var i := 0;
    while i < datas.Length
      invariant 0 <= i <= |rs|
      invariant out.ival == Ivals(rs, i)
    {
      assert datas[..][i].reply == rs[i];
      out.ival := out.ival + datas[i].reply.ival;
      i := i + 1;
    }
  }

  /** GetResponses.  `memory` says whether both allocations succeed. */
  method GetResponses(send: (nat, Request) -> Reply, cs: seq<Connection>, q: Request, memory: bool, out: Response)
    returns (ret: int)
    requires CanSplit(cs) && q.n > 0
    modifies out
    ensures memory ==> FirstFailure(Answers(send, cs, q), ret)
    ensures !memory ==> ret == -1
    ensures out.ival == if ret == 0 then Ivals(Answers(send, cs, q), |cs|) else old(out.ival)
  {
    if memory {
      var datas := new ThreadData[|cs|](_ => ThreadData(0, Request(0.0, 0.0, 0), Reply(0, 0.0)));
      Schedule(cs, q, datas);
      Exchange(send, cs, q, datas);
      ghost var rs := Answers(send, cs, q);
      ret := FindFailure(datas, rs);
      if ret == 0 {
        AddUp(datas, rs, out);
      }
    } else {
      ret := -1;
    }
  }

  // ---------- what the sum is ----------

  /** The pieces follow one another from the left end to the right end. */
  lemma PiecesTile(cs: seq<Connection>, q: Request, i: nat)
    requires CanSplit(cs) && q.n > 0 && i < |cs|
    ensures RequestAt(cs, q, 0).l == q.l && RequestAt(cs, q, |cs| - 1).r == q.r
    ensures i + 1 < |cs| ==> RequestAt(cs, q, i).r == RequestAt(cs, q, i + 1).l
    ensures var p := RequestAt(cs, q, i); p.n > 0 ==> Quotient(p.r - p.l, p.n) == Quotient(q.r - q.l, q.n)
  {
    GridEnds(q.l, q.r, q.n);
    StepKept(cs, q, i);
  }

  lemma StepKept(cs: seq<Connection>, q: Request, i: nat)
    requires CanSplit(cs) && q.n > 0 && i < |cs|
    ensures var p := RequestAt(cs, q, i); p.n > 0 ==> Quotient(p.r - p.l, p.n) == Quotient(q.r - q.l, q.n)
  {
    var k := Given(cs, q.n, i);
    if k > 0 {
      GridPiece(q.l, Quotient(q.r - q.l, q.n), Used(cs, q.n, i), k);
    }
  }

  lemma GridPiece(l: real, h: real, u: nat, k: nat)
    requires k > 0
    ensures Quotient(At(l, h, u + k) - At(l, h, u), k) == h
  {
    NextPoint(l, h, u, k);
    Cancel(h, k as real);
  }

  /** The first `k` numbers together. */
  function Count(xs: seq<nat>, k: nat): nat
    requires k <= |xs|
  {
    Sum(xs[..k])
  }

  function Counts(cs: seq<Connection>, n: nat): (counts: seq<nat>)
    requires CanSplit(cs)
    ensures |counts| == |cs|
  {
    seq(|cs|, i requires 0 <= i < |cs| => Given(cs, n, i))
  }

  /** The counts of all workers add up to `n`. */
  lemma {:induction false} CountsAddUp(cs: seq<Connection>, n: nat, k: nat)
    requires CanSplit(cs) && k <= |cs|
    ensures Count(Counts(cs, n), k) == Used(cs, n, k)
    ensures k == |cs| ==> Count(Counts(cs, n), k) == n
    decreases k
  {
    if k > 0 {
      CountsAddUp(cs, n, k - 1);
      SumNext(Counts(cs, n), k - 1);
    }
  }

  /** Workers that answer with the sum of the first `done[i]` trapezoids of their pieces. */
  ghost predicate Honest(f: real -> real, send: (nat, Request) -> Reply, cs: seq<Connection>,
                         q: Request, done: seq<nat>)
    requires CanSplit(cs)
  {
    && |done| == |cs|
    && forall i :: 0 <= i < |cs| ==>
         var p := RequestAt(cs, q, i);
         && done[i] <= p.n
         && send(i, p) == Reply(0, Trap(f, p.l, Quotient(p.r - p.l, p.n), done[i]))
  }

  /** The trapezoids from grid point `i` to grid point `j` of a grid of width `h` from `l`. */
  function Area(f: real -> real, l: real, h: real): (nat, nat) -> real {
    (i: nat, j: nat) => if i <= j then Trap(f, At(l, h, i), h, j - i) else 0.0
  }

  function UpTo(f: real -> real, l: real, h: real): nat -> real { (j: nat) => Trap(f, l, h, j) }

  ghost predicate Measures(area: (nat, nat) -> real, whole: nat -> real) {
    forall i: nat, j: nat {:trigger area(i, j)} :: i <= j ==> area(i, j) == whole(j) - whole(i)
  }

  lemma AreaMeasures(f: real -> real, l: real, h: real)
    ensures Measures(Area(f, l, h), UpTo(f, l, h))
  {
    forall i: nat, j: nat | i <= j
      ensures Area(f, l, h)(i, j) == UpTo(f, l, h)(j) - UpTo(f, l, h)(i)
    {
      TrapSplit(f, l, h, i, j - i);
    }
  }

  /** What the first `k` workers left out: the last part of each piece. */
  function Missing(area: (nat, nat) -> real, counts: seq<nat>, done: seq<nat>, k: nat): real
    requires k <= |counts| == |done|
  {
    if k == 0 then 0.0
    else Missing(area, counts, done, k - 1) + area(Count(counts, k - 1) + done[k - 1], Count(counts, k))
  }

  /** Answer `i` is the first part of its piece. */
  predicate IsPart(area: (nat, nat) -> real, rs: seq<Reply>, counts: seq<nat>, done: seq<nat>, i: nat)
    requires i < |rs| == |counts| == |done|
  {
    done[i] <= counts[i] && rs[i].ival == area(Count(counts, i), Count(counts, i) + done[i])
  }

  ghost predicate Parts(area: (nat, nat) -> real, rs: seq<Reply>, counts: seq<nat>, done: seq<nat>) {
    && |rs| == |counts| == |done|
    && forall i :: 0 <= i < |rs| ==> IsPart(area, rs, counts, done, i)
  }

  lemma {:induction false} PiecesSum(area: (nat, nat) -> real, whole: nat -> real,
                                     rs: seq<Reply>, counts: seq<nat>, done: seq<nat>, k: nat)
    requires Measures(area, whole) && Parts(area, rs, counts, done) && k <= |rs|
    ensures Ivals(rs, k) + Missing(area, counts, done, k) == whole(Count(counts, k)) - whole(0)
  {
    if k > 0 {
      PiecesSum(area, whole, rs, counts, done, k - 1);
      SumNext(counts, k - 1);
      assert IsPart(area, rs, counts, done, k - 1);
    }
  }

  /** What a worker computes of its piece, as part of the whole. */
  lemma AnswerIs(f: real -> real, cs: seq<Connection>, q: Request, i: nat, done: nat)
    requires CanSplit(cs) && q.n > 0 && i < |cs| && done <= Given(cs, q.n, i)
    ensures var p, u := RequestAt(cs, q, i), Count(Counts(cs, q.n), i);
            Trap(f, p.l, Quotient(p.r - p.l, p.n), done) == Area(f, q.l, Quotient(q.r - q.l, q.n))(u, u + done)
  {
    CountsAddUp(cs, q.n, i);
    if done > 0 {
      StepKept(cs, q, i);
    }
  }

  lemma AnswerIsPart(f: real -> real, send: (nat, Request) -> Reply, cs: seq<Connection>,
                     q: Request, done: seq<nat>, i: nat)
    requires CanSplit(cs) && q.n > 0 && Honest(f, send, cs, q, done) && i < |cs|
    ensures IsPart(Area(f, q.l, Quotient(q.r - q.l, q.n)), Answers(send, cs, q), Counts(cs, q.n), done, i)
  {
    assert done[i] <= RequestAt(cs, q, i).n;
    AnswerIs(f, cs, q, i, done[i]);
  }

  lemma {:induction false} AnswersAreParts(f: real -> real, send: (nat, Request) -> Reply, cs: seq<Connection>,
                                           q: Request, done: seq<nat>)
    requires CanSplit(cs) && q.n > 0 && Honest(f, send, cs, q, done)
    ensures Parts(Area(f, q.l, Quotient(q.r - q.l, q.n)), Answers(send, cs, q), Counts(cs, q.n), done)
  {
    var area, rs, counts := Area(f, q.l, Quotient(q.r - q.l, q.n)), Answers(send, cs, q), Counts(cs, q.n);
    forall i | 0 <= i < |cs|
      ensures IsPart(area, rs, counts, done, i)
    {
      AnswerIsPart(f, send, cs, q, done, i);
    }
  }

  lemma SumOfParts(f: real -> real, l: real, h: real, n: nat, rs: seq<Reply>, counts: seq<nat>, done: seq<nat>)
    requires Parts(Area(f, l, h), rs, counts, done) && Count(counts, |counts|) == n
    ensures Ivals(rs, |rs|) + Missing(Area(f, l, h), counts, done, |rs|) == Trap(f, l, h, n)
  {
    AreaMeasures(f, l, h);
    PiecesSum(Area(f, l, h), UpTo(f, l, h), rs, counts, done, |rs|);
  }

  /** What the client computes, and what its workers left out, is what one machine would
      compute. */
  lemma {:induction false} SplitComputesWhole(f: real -> real, send: (nat, Request) -> Reply, cs: seq<Connection>,
                                              q: Request, done: seq<nat>)
    requires CanSplit(cs) && q.n > 0 && Honest(f, send, cs, q, done)
    ensures var h := Quotient(q.r - q.l, q.n);
            Ivals(Answers(send, cs, q), |cs|) + Missing(Area(f, q.l, h), Counts(cs, q.n), done, |cs|)
            == Trap(f, q.l, h, q.n)
  {
    AnswersAreParts(f, send, cs, q, done);
    CountsAddUp(cs, q.n, |cs|);
    SumOfParts(f, q.l, Quotient(q.r - q.l, q.n), q.n, Answers(send, cs, q), Counts(cs, q.n), done);
  }

  lemma {:induction false} NothingMissing(area: (nat, nat) -> real, whole: nat -> real, counts: seq<nat>, k: nat)
    requires k <= |counts| && Measures(area, whole)
    ensures Missing(area, counts, counts, k) == 0.0
  {
    if k > 0 {
      NothingMissing(area, whole, counts, k - 1);
      SumNext(counts, k - 1);
    }
  }

  /** Workers that integrate their pieces on one thread give the one-machine result. */
  lemma {:induction false} SplitIsExact(f: real -> real, send: (nat, Request) -> Reply, cs: seq<Connection>, q: Request)
    requires CanSplit(cs) && q.n > 0
    requires forall i, p: Request {:trigger send(i, p)} :: 0 <= i < |cs| ==>
      send(i, p) == Reply(0, Trap(f, p.l, Quotient(p.r - p.l, p.n), p.n))
    ensures Ivals(Answers(send, cs, q), |cs|) == Trap(f, q.l, Quotient(q.r - q.l, q.n), q.n)
  {
    var h := Quotient(q.r - q.l, q.n);
    SplitComputesWhole(f, send, cs, q, Counts(cs, q.n));
    AreaMeasures(f, q.l, h);
    NothingMissing(Area(f, q.l, h), UpTo(f, q.l, h), Counts(cs, q.n), |cs|);
  }

  // ---------- workers that schedule threads ----------

  /** A worker machine: its processors and the number of threads it uses. */
  datatype Worker = Worker(topology: CPUTopology, threads: nat)

  predicate Able(w: Worker) { w.topology.ThreadCount() > 0 && w.threads > 0 }

  function Done(w: Worker, n: nat): nat
    requires Able(w)
  {
    Steps(Entries(w.topology, n, w.threads))
  }

  /** Of `given` steps and `done` ones, fewer than one for each thread are lost. */
  lemma {:induction false} FewLost(given: seq<nat>, done: seq<nat>, threads: seq<nat>, k: nat)
    requires k <= |given| == |done| == |threads|
    requires forall i :: 0 <= i < |given| ==> done[i] <= given[i] < done[i] + threads[i]
    ensures Count(done, k) <= Count(given, k) <= Count(done, k) + Count(threads, k) - k
  {
    if k > 0 {
      FewLost(given, done, threads, k - 1);
      SumNext(given, k - 1);
      SumNext(done, k - 1);
      SumNext(threads, k - 1);
    }
  }

  lemma DoneNear(w: Worker, n: nat)
    requires Able(w)
    ensures Done(w, n) <= n < Done(w, n) + w.threads
  {
    StepsNearWork(w.topology, n, w.threads);
  }

  /** The steps each worker does of its piece. */
  function DoneBy(cs: seq<Connection>, n: nat, ws: seq<Worker>): (done: seq<nat>)
    requires CanSplit(cs) && |ws| == |cs| && forall i :: 0 <= i < |ws| ==> Able(ws[i])
    ensures |done| == |cs|
  {
    seq(|cs|, i requires 0 <= i < |cs| => Done(ws[i], Given(cs, n, i)))
  }

  function ThreadCounts(ws: seq<Worker>): (threads: seq<nat>)
    ensures |threads| == |ws|
  {
    seq(|ws|, i requires 0 <= i < |ws| => ws[i].threads)
  }

  /** All workers together do at most the `n` steps and lose fewer than they have threads. */
  lemma {:induction false} StepsDone(cs: seq<Connection>, n: nat, ws: seq<Worker>)
    requires CanSplit(cs) && |ws| == |cs| && forall i :: 0 <= i < |ws| ==> Able(ws[i])
    ensures forall i :: 0 <= i < |cs| ==>
              DoneBy(cs, n, ws)[i] <= Counts(cs, n)[i] < DoneBy(cs, n, ws)[i] + ws[i].threads
    ensures Count(DoneBy(cs, n, ws), |cs|) <= n < Count(DoneBy(cs, n, ws), |cs|) + Count(ThreadCounts(ws), |ws|)
  {
    var given, done, threads := Counts(cs, n), DoneBy(cs, n, ws), ThreadCounts(ws);
    forall i | 0 <= i < |cs|
      ensures done[i] <= given[i] < done[i] + threads[i]
    {
      DoneNear(ws[i], given[i]);
    }
    FewLost(given, done, threads, |cs|);
    CountsAddUp(cs, n, |cs|);
  }

  /** With workers that run scheduleIntegrate, the client's sum is the one-machine sum without the
      last steps of each piece. */
  lemma {:induction false} ScheduledSplit(f: real -> real, send: (nat, Request) -> Reply, cs: seq<Connection>,
                                          q: Request, ws: seq<Worker>)
    requires CanSplit(cs) && q.n > 0
    requires |ws| == |cs| && forall i :: 0 <= i < |ws| ==> Able(ws[i])
    requires forall i, p: Request {:trigger send(i, p)} :: 0 <= i < |cs| ==>
      send(i, p) == Reply(0, Trap(f, p.l, Quotient(p.r - p.l, p.n), Done(ws[i], p.n)))
    ensures var h := Quotient(q.r - q.l, q.n);
            Ivals(Answers(send, cs, q), |cs|) + Missing(Area(f, q.l, h), Counts(cs, q.n), DoneBy(cs, q.n, ws), |cs|)
            == Trap(f, q.l, h, q.n)
  {
    StepsDone(cs, q.n, ws);
    SplitComputesWhole(f, send, cs, q, DoneBy(cs, q.n, ws));
  }
}
