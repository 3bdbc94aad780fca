/** Items are neither lost nor invented by a group of fused sync blocks. */
module Conservation {
  import opened Returns
  import opened Options
  import opened GraphExecutor
  import opened ExecutorTheorems

  // ---- Ports on a buffer ----

  function PortsIn(ins: seq<InPort>, x: nat): nat {
    if ins == [] then 0 else PortsIn(ins[..|ins| - 1], x) + if ins[|ins| - 1].buf == x then 1 else 0
  }

  function PortsOut(outs: seq<OutPort>, x: nat): nat {
    if outs == [] then 0 else PortsOut(outs[..|outs| - 1], x) + if outs[|outs| - 1].buf == x then 1 else 0
  }

  /** Input ports, and output ports, of a group on buffer `x`: one of each on an internal edge, an input port
      only on a buffer that feeds the group, an output port only on a buffer that the group feeds. */
  function Readers(bs: seq<Block>, x: nat): nat {
    if bs == [] then 0 else Readers(bs[..|bs| - 1], x) + PortsIn(bs[|bs| - 1].ins, x)
  }

  function Writers(bs: seq<Block>, x: nat): nat {
    if bs == [] then 0 else Writers(bs[..|bs| - 1], x) + PortsOut(bs[|bs| - 1].outs, x)
  }

  /** Every buffer's read counter has grown by `n` for every reader, its write counter by `m` for every writer. */
  ghost predicate Moved(bs: seq<Block>, before: seq<Buffer>, after: seq<Buffer>, n: int, m: int) {
    |after| == |before| && forall x :: 0 <= x < |before| ==>
      && after[x].read == before[x].read + n * Readers(bs, x)
      && after[x].written == before[x].written + m * Writers(bs, x)
  }

  // ---- What the posts do ----

  predicate Consumed(ins: seq<InPort>, q: nat) {
    forall i :: 0 <= i < |ins| ==> ins[i].nConsumed == q
  }

  lemma {:induction false} PortReadsMove(bufs: seq<Buffer>, ins: seq<InPort>, q: nat, x: nat)
    requires Consumed(ins, q) && x < |bufs|
    ensures Apply(bufs, PortReads(ins))[x].read == bufs[x].read + q * PortsIn(ins, x)
    ensures Apply(bufs, PortReads(ins))[x].written == bufs[x].written
  {
    hide Apply; hide PortsIn;
    OnePortIn(ins, x);
    if ins == [] {
      ApplyNothing(bufs);
    } else {
      var front, last := ins[..|ins| - 1], ins[|ins| - 1];
      PortReadsMove(bufs, front, q, x);
      assert PortReads(ins) == PortReads(front) + [PostRead(last.buf, q)];
      ApplyMore(bufs, PortReads(front), PostRead(last.buf, q));
      OneMoreTimes(q, PortsIn(front, x), last.buf == x);
    }
  }

  lemma OnePortIn(ins: seq<InPort>, x: nat)
    ensures PortsIn(ins, x)
         == if ins == [] then 0 else PortsIn(ins[..|ins| - 1], x) + if ins[|ins| - 1].buf == x then 1 else 0
  {
  }

  lemma OnePortOut(outs: seq<OutPort>, x: nat)
    ensures PortsOut(outs, x)
         == if outs == [] then 0 else PortsOut(outs[..|outs| - 1], x) + if outs[|outs| - 1].buf == x then 1 else 0
  {
  }

  lemma OneMoreTimes(q: int, n: nat, more: bool)
    ensures q * (n + if more then 1 else 0) == q * n + if more then q else 0
  {
  }

  lemma Distribute(q: int, a: int, b: int)
    ensures q * (a + b) == q * a + q * b
  {
  }

  lemma {:induction false} ReadPostsMove(bufs: seq<Buffer>, bs: seq<Block>, q: nat, x: nat)
    requires forall j :: 0 <= j < |bs| ==> Consumed(bs[j].ins, q)
    requires x < |bufs|
    ensures Apply(bufs, ReadPosts(bs))[x].read == bufs[x].read + q * Readers(bs, x)
    ensures Apply(bufs, ReadPosts(bs))[x].written == bufs[x].written
  {
    hide Apply; hide PortReads; hide PortsIn;
    if bs == [] {
      ApplyNothing(bufs);
    } else {
      var front, last := bs[..|bs| - 1], bs[|bs| - 1];
      ReadPostsMove(bufs, front, q, x);
      ApplyConcat(bufs, ReadPosts(front), PortReads(last.ins));
      PortReadsMove(Apply(bufs, ReadPosts(front)), last.ins, q, x);
      Distribute(q, Readers(front, x), PortsIn(last.ins, x));
    }
  }

  lemma {:induction false} PortWritesMove(bufs: seq<Buffer>, outs: seq<OutPort>, np: nat, x: nat)
    requires x < |bufs|
    ensures Apply(bufs, PortWrites(outs, np))[x].written == bufs[x].written + np * PortsOut(outs, x)
    ensures Apply(bufs, PortWrites(outs, np))[x].read == bufs[x].read
  {
    hide Apply; hide PortsOut;
    OnePortOut(outs, x);
    if outs == [] {
      ApplyNothing(bufs);
    } else {
      var front, last := outs[..|outs| - 1], outs[|outs| - 1];
      PortWritesMove(bufs, front, np, x);
      assert PortWrites(outs, np) == PortWrites(front, np) + [PostWrite(last.buf, np)];
      ApplyMore(bufs, PortWrites(front, np), PostWrite(last.buf, np));
      OneMoreTimes(np, PortsOut(front, x), last.buf == x);
    }
  }

  lemma {:induction false} WritePostsMove(bufs: seq<Buffer>, bs: seq<Block>, np: nat, x: nat)
    requires x < |bufs|
    ensures Apply(bufs, WritePosts(bs, np))[x].written == bufs[x].written + np * Writers(bs, x)
    ensures Apply(bufs, WritePosts(bs, np))[x].read == bufs[x].read
  {
    hide Apply; hide PortWrites; hide PortsOut;
    if bs == [] {
      ApplyNothing(bufs);
    } else {
      var front, last := bs[..|bs| - 1], bs[|bs| - 1];
      WritePostsMove(bufs, front, np, x);
      ApplyConcat(bufs, WritePosts(front, np), PortWrites(last.outs, np));
      PortWritesMove(Apply(bufs, WritePosts(front, np)), last.outs, np, x);
      Distribute(np, Writers(front, x), PortsOut(last.outs, x));
    }
  }

  // ---- Fused sync blocks ----

  /** A chain of sync blocks with one output multiple. */
  predicate Fused(bs: seq<Block>) {
    forall j :: 0 <= j < |bs| ==>
      && bs[j].ins != [] && bs[j].outs != []
      && bs[j].multipleSet == bs[0].multipleSet && bs[j].multiple == bs[0].multiple
  }

  /** The same ports on the same buffers, the same multiples. */
  predicate SameWiring(a: seq<Block>, b: seq<Block>) {
    |a| == |b| && forall j :: 0 <= j < |a| ==>
      && |a[j].ins| == |b[j].ins| && |a[j].outs| == |b[j].outs|
      && a[j].multipleSet == b[j].multipleSet && a[j].multiple == b[j].multiple
      && (forall i :: 0 <= i < |a[j].ins| ==> a[j].ins[i].buf == b[j].ins[i].buf)
      && (forall i :: 0 <= i < |a[j].outs| ==> a[j].outs[i].buf == b[j].outs[i].buf)
  }

  lemma {:induction false} SamePorts(a: Block, b: Block, x: nat)
    requires |a.ins| == |b.ins| && |a.outs| == |b.outs|
    requires forall i :: 0 <= i < |a.ins| ==> a.ins[i].buf == b.ins[i].buf
    requires forall i :: 0 <= i < |a.outs| ==> a.outs[i].buf == b.outs[i].buf
    ensures PortsIn(a.ins, x) == PortsIn(b.ins, x) && PortsOut(a.outs, x) == PortsOut(b.outs, x)
    decreases |a.ins| + |a.outs|
  {
    if a.ins != [] {
      SamePorts(a.(ins := a.ins[..|a.ins| - 1]), b.(ins := b.ins[..|b.ins| - 1]), x);
    }
    if a.outs != [] {
      SamePorts(a.(outs := a.outs[..|a.outs| - 1]), b.(outs := b.outs[..|b.outs| - 1]), x);
    }
  }

  lemma {:induction false} SameCounts(a: seq<Block>, b: seq<Block>, x: nat)
    requires SameWiring(a, b)
    ensures Readers(a, x) == Readers(b, x) && Writers(a, x) == Writers(b, x)
  {
    if a != [] {
      SameCounts(a[..|a| - 1], b[..|b| - 1], x);
      SamePorts(a[|a| - 1], b[|b| - 1], x);
    }
  }

  lemma ChecksKeepWiring(bs: seq<Block>, bufs: seq<Buffer>)
    requires Runnable(bs, bufs)
    ensures SameWiring(CheckedIns(bs, bufs).blocks, bs)
    ensures SameWiring(CheckedOuts(bs, bufs).blocks, bs)
  {
  }

  lemma RunsKeepWiring(bs: seq<Block>, nin: nat, nout: nat, scripts: seq<seq<Return>>, n: nat)
    requires |scripts| == |bs| && n <= |bs|
    ensures SameWiring(RanBlocks(bs, nin, nout, scripts, n), bs)
  {
  }

  lemma WorkKeepsWiring(bs: seq<Block>, bufs: seq<Buffer>, scripts: seq<seq<Return>>)
    requires Runnable(bs, bufs) && |scripts| == |bs|
    ensures SameWiring(Work(bs, bufs, scripts).blocks, bs)
  {
    hide RanBlocks; hide FirstStuck; hide SameWiring; hide WorkEvents;
    var nin, nout := bs[0].ins[0].nItems, bs[|bs| - 1].outs[0].nItems;
    var stuck := FirstStuck(scripts, 0);
    RunsKeepWiring(bs, nin, nout, scripts, if stuck < |bs| then stuck + 1 else |bs|);
  }

  lemma SameWiringChain(a: seq<Block>, b: seq<Block>, c: seq<Block>)
    requires SameWiring(a, b) && SameWiring(b, c)
    ensures SameWiring(a, c)
  {
  }

  lemma IterationKeepsWiring(bs: seq<Block>, bufs: seq<Buffer>, scripts: seq<seq<Return>>)
    requires Runnable(bs, bufs) && |scripts| == |bs|
    ensures SameWiring(Iterate(bs, bufs, scripts).blocks, bs)
  {
    hide Work; hide CheckedIns; hide CheckedOuts; hide SameWiring; hide Runnable;
    var b1 := CheckedIns(bs, bufs).blocks;
    var b2 := CheckedOuts(b1, bufs).blocks;
    ChecksKeepWiring(bs, bufs);
    ChecksKeepWiring(b1, bufs);
    WorkKeepsWiring(b2, bufs, scripts);
    SameWiringChain(b2, b1, bs);
    SameWiringChain(Work(b2, bufs, scripts).blocks, b2, bs);
  }

  /** What one iteration of a fused group moves: `q` items where do_work finished, none where it did not. */
  lemma RanBlock(b: Block, nin: nat, nout: nat, script: seq<Return>, last: bool)
    requires Attempts(script, last).Some?
    ensures var r, ret := Ran(b, nin, nout, script, last), script[Attempts(script, last).value - 1];
      var q := if Finishes(ret) then SyncItems(b, nin, nout) else 0;
      Consumed(r.ins, q) && forall i :: 0 <= i < |r.outs| ==> r.outs[i].nProduced == q
  {
  }

  /** The items that every block of a fused group can process in an iteration. */
  function Quota(bs: seq<Block>, bufs: seq<Buffer>): nat
    requires Runnable(bs, bufs)
  {
    var g := Granted(bs, bufs);
    SyncItems(bs[0], g[0].ins[0].nItems, g[|g| - 1].outs[0].nItems)
  }

  /** The blocks of a fused group behind an iteration that returned. */
  lemma RanFused(g: seq<Block>, nin: nat, nout: nat, scripts: seq<seq<Return>>, q: nat)
    requires Fused(g) && |scripts| == |g| && g != [] && FirstStuck(scripts, 0) == |g|
    requires q == SyncItems(g[0], nin, nout)
    ensures var ran, last := RanBlocks(g, nin, nout, scripts, |g|), |g| - 1;
      var ql := if Finishes(LastReturn(scripts)) then q else 0;
      && (forall j :: 0 <= j < last ==> Consumed(ran[j].ins, q))
      && Consumed(ran[last].ins, ql) && |ran[last].outs| == |g[last].outs|
      && (forall i :: 0 <= i < |ran[last].outs| ==> ran[last].outs[i].nProduced == ql)
  {
    hide Ran;
    var ran, last := RanBlocks(g, nin, nout, scripts, |g|), |g| - 1;
    forall j | 0 <= j < |g|
      ensures j < last ==> Consumed(ran[j].ins, q)
      ensures j == last ==> var ql := if Finishes(LastReturn(scripts)) then q else 0;
        && Consumed(ran[j].ins, ql)
        && (forall i :: 0 <= i < |ran[j].outs| ==> ran[j].outs[i].nProduced == ql)
    {
      RanBlock(g[j], nin, nout, scripts[j], j == last);
      assert SyncItems(g[j], nin, nout) == q;
    }
    RunsKeepWiring(g, nin, nout, scripts, |g|);
  }

  /** The input ports that get to consume: all of them when the last block finished, else all but its own. */
  function Consumers(bs: seq<Block>, finished: bool, x: nat): nat
    requires bs != []
  {
    Readers(if finished then bs else bs[..|bs| - 1], x)
  }

  function Producers(bs: seq<Block>, finished: bool, x: nat): nat {
    if finished then Writers(bs, x) else 0
  }

  lemma WorkApplied(g: seq<Block>, bufs: seq<Buffer>, scripts: seq<seq<Return>>)
    requires Runnable(g, bufs) && |scripts| == |g| && FirstStuck(scripts, 0) == |g|
    ensures var ran := RanBlocks(g, g[0].ins[0].nItems, g[|g| - 1].outs[0].nItems, scripts, |g|);
      && ran[|g| - 1].outs != []
      && Apply(bufs, Work(g, bufs, scripts).events)
         == Apply(Apply(bufs, ReadPosts(ran)), WritePosts(ran, ran[|g| - 1].outs[0].nProduced))
  {
    hide Apply; hide ReadPosts; hide WritePosts; hide UpstreamNotes; hide DownstreamNotes; hide WorkEvents;
    hide Unclogging; hide StatusOf; hide FirstStuck; hide RanBlocks; hide PortsOk;
    var ran := RanBlocks(g, g[0].ins[0].nItems, g[|g| - 1].outs[0].nItems, scripts, |g|);
    RanKeepsPorts(g, bufs, scripts);
    StagesOf(bufs, ran, scripts, LastReturn(scripts));
  }

  /** Where the last block finished every port on every buffer has moved the quota; where it did not, the other
      blocks have consumed it and nothing has been written. */
  lemma WorkMoves(g: seq<Block>, bufs: seq<Buffer>, scripts: seq<seq<Return>>, q: nat, x: nat)
    requires Runnable(g, bufs) && Fused(g) && |scripts| == |g| && FirstStuck(scripts, 0) == |g|
    requires q == SyncItems(g[0], g[0].ins[0].nItems, g[|g| - 1].outs[0].nItems) && x < |bufs|
    ensures var after, finished := Apply(bufs, Work(g, bufs, scripts).events), Finishes(LastReturn(scripts));
      && after[x].read == bufs[x].read + q * Consumers(g, finished, x)
      && after[x].written == bufs[x].written + q * Producers(g, finished, x)
  {
    hide Apply; hide ReadPosts; hide WritePosts; hide Work; hide FirstStuck; hide RanBlocks; hide Fused;
    hide SyncItems; hide Readers; hide Writers;
    var nin, nout, last := g[0].ins[0].nItems, g[|g| - 1].outs[0].nItems, |g| - 1;
    var ran := RanBlocks(g, nin, nout, scripts, |g|);
    var finished := Finishes(LastReturn(scripts));
    RanFused(g, nin, nout, scripts, q);
    RunsKeepWiring(g, nin, nout, scripts, |g|);
    WorkApplied(g, bufs, scripts);
    PostsMove(bufs, ran, q, finished, x);
    SameCounts(ran, g, x);
    assert SameWiring(ran[..last], g[..last]);
    SameCounts(ran[..last], g[..last], x);
  }

  lemma PostsMove(bufs: seq<Buffer>, ran: seq<Block>, q: nat, finished: bool, x: nat)
    requires ran != [] && x < |bufs|
    requires forall j :: 0 <= j < |ran| - 1 ==> Consumed(ran[j].ins, q)
    requires Consumed(ran[|ran| - 1].ins, if finished then q else 0)
    ensures var after := Apply(Apply(bufs, ReadPosts(ran)), WritePosts(ran, if finished then q else 0));
      && after[x].read == bufs[x].read + q * Consumers(ran, finished, x)
      && after[x].written == bufs[x].written + q * Producers(ran, finished, x)
  {
    hide Apply; hide WritePosts; hide PortReads; hide PortsIn; hide Writers;
    var front, last := ran[..|ran| - 1], ran[|ran| - 1];
    var ql := if finished then q else 0;
    ReadPostsMove(bufs, front, q, x);
    ApplyConcat(bufs, ReadPosts(front), PortReads(last.ins));
    PortReadsMove(Apply(bufs, ReadPosts(front)), last.ins, ql, x);
    WritePostsMove(Apply(bufs, ReadPosts(ran)), ran, ql, x);
    Distribute(q, Readers(front, x), PortsIn(last.ins, x));
  }

  lemma GrantedKeeps(bs: seq<Block>, bufs: seq<Buffer>)
    requires Runnable(bs, bufs) && Fused(bs)
    ensures SameWiring(Granted(bs, bufs), bs) && Fused(Granted(bs, bufs))
    ensures Granted(bs, bufs)[0].multipleSet == bs[0].multipleSet && Granted(bs, bufs)[0].multiple == bs[0].multiple
  {
    hide CheckedIns; hide CheckedOuts;
    var b1 := CheckedIns(bs, bufs).blocks;
    ChecksKeepWiring(bs, bufs);
    ChecksKeepWiring(b1, bufs);
    SameWiringChain(CheckedOuts(b1, bufs).blocks, b1, bs);
  }

  lemma ReadyIsWork(bs: seq<Block>, bufs: seq<Buffer>, scripts: seq<seq<Return>>)
    requires Runnable(bs, bufs) && |scripts| == |bs| && Ready(bs, bufs)
    ensures Iterate(bs, bufs, scripts) == Work(Granted(bs, bufs), bufs, scripts)
    ensures Iterate(bs, bufs, scripts).outcome.Returned? ==> FirstStuck(scripts, 0) == |bs|
  {
    hide CheckedIns; hide CheckedOuts; hide FirstStuck;
  }

  /** The buffers behind an iteration. */
  function Behind(bs: seq<Block>, bufs: seq<Buffer>, scripts: seq<seq<Return>>): (r: seq<Buffer>)
    requires Runnable(bs, bufs) && |scripts| == |bs|
    ensures |r| == |bufs|
  {
    Apply(bufs, Iterate(bs, bufs, scripts).events)
  }

  /** What a ready iteration of a fused group does to every buffer, by what its last block returned. */
  lemma IterationMoves(bs: seq<Block>, bufs: seq<Buffer>, scripts: seq<seq<Return>>, x: nat)
    requires Runnable(bs, bufs) && Fused(bs) && |scripts| == |bs| && x < |bufs|
    requires Ready(bs, bufs) && Iterate(bs, bufs, scripts).outcome.Returned?
    ensures FirstStuck(scripts, 0) == |bs|
    ensures var after, q, finished := Behind(bs, bufs, scripts), Quota(bs, bufs), Finishes(LastReturn(scripts));
      && after[x].read == bufs[x].read + q * Consumers(bs, finished, x)
      && after[x].written == bufs[x].written + q * Producers(bs, finished, x)
  {
    hide Iterate; hide Work; hide Granted; hide Apply; hide FirstStuck; hide PortsOk; hide Ready;
    hide Readers; hide Writers; hide Fused;
    ReadyIsWork(bs, bufs, scripts);
    GrantedKeeps(bs, bufs);
    var g := Granted(bs, bufs);
    WorkMoves(g, bufs, scripts, Quota(bs, bufs), x);
    SameCounts(g, bs, x);
    assert SameWiring(g[..|g| - 1], bs[..|bs| - 1]);
    SameCounts(g[..|g| - 1], bs[..|bs| - 1], x);
    assert Behind(bs, bufs, scripts)[x] == Apply(bufs, Work(g, bufs, scripts).events)[x];
  }

  /** A port is counted on its buffer. */
  lemma {:induction false} PortCounts(b: Block, i: nat)
    ensures i < |b.ins| ==> PortsIn(b.ins, b.ins[i].buf) > 0
    ensures i < |b.outs| ==> PortsOut(b.outs, b.outs[i].buf) > 0
    decreases |b.ins| + |b.outs|
  {
    if i < |b.ins| - 1 {
      PortCounts(Block(b.ins[..|b.ins| - 1], [], b.multipleSet, b.multiple), i);
    }
    if i < |b.outs| - 1 {
      PortCounts(Block([], b.outs[..|b.outs| - 1], b.multipleSet, b.multiple), i);
    }
  }

  lemma {:induction false} BlockCounts(bs: seq<Block>, j: nat, x: nat)
    requires j < |bs|
    ensures Readers(bs, x) >= PortsIn(bs[j].ins, x) && Writers(bs, x) >= PortsOut(bs[j].outs, x)
  {
    if j < |bs| - 1 {
      BlockCounts(bs[..|bs| - 1], j, x);
    }
  }

  /** A chain conserves items over an iteration exactly when its last block finished, or is the only one, or
      nothing could be processed at all: insufficient items or room reported by the last of several blocks
      loses what the others have consumed. */
  lemma ConservationExactly(bs: seq<Block>, bufs: seq<Buffer>, scripts: seq<seq<Return>>)
    requires Runnable(bs, bufs) && Fused(bs) && |scripts| == |bs|
    requires Ready(bs, bufs) && Iterate(bs, bufs, scripts).outcome.Returned?
    ensures FirstStuck(scripts, 0) == |bs|
    ensures (exists n :: Moved(bs, bufs, Behind(bs, bufs, scripts), n, n))
      <==> Finishes(LastReturn(scripts)) || |bs| == 1 || Quota(bs, bufs) == 0
  {
    hide Behind; hide Quota; hide Ready; hide Iterate; hide FirstStuck; hide Fused; hide Readers; hide Writers;
    IterationMoves(bs, bufs, scripts, bs[0].ins[0].buf);
    var finished, q := Finishes(LastReturn(scripts)), Quota(bs, bufs);
    if finished || |bs| == 1 || q == 0 {
      MovesEvenly(bs, bufs, scripts);
    } else {
      forall n
        ensures !Moved(bs, bufs, Behind(bs, bufs, scripts), n, n)
      {
        LosesItems(bs, bufs, scripts, n);
      }
    }
  }

  /** What an iteration that conserves items moves. */
  function Pace(bs: seq<Block>, bufs: seq<Buffer>, scripts: seq<seq<Return>>): nat
    requires Runnable(bs, bufs) && |scripts| == |bs| && FirstStuck(scripts, 0) == |bs|
  {
    if Finishes(LastReturn(scripts)) then Quota(bs, bufs) else 0
  }

  lemma MovesEvenly(bs: seq<Block>, bufs: seq<Buffer>, scripts: seq<seq<Return>>)
    requires Runnable(bs, bufs) && Fused(bs) && |scripts| == |bs|
    requires Ready(bs, bufs) && Iterate(bs, bufs, scripts).outcome.Returned? && FirstStuck(scripts, 0) == |bs|
    requires Finishes(LastReturn(scripts)) || |bs| == 1 || Quota(bs, bufs) == 0
    ensures Moved(bs, bufs, Behind(bs, bufs, scripts), Pace(bs, bufs, scripts), Pace(bs, bufs, scripts))
  {
    hide Behind; hide Quota; hide Ready; hide Iterate; hide FirstStuck; hide Fused; hide Writers;
    var after, n := Behind(bs, bufs, scripts), Pace(bs, bufs, scripts);
    forall x | 0 <= x < |bufs|
      ensures after[x].read == bufs[x].read + n * Readers(bs, x)
      ensures after[x].written == bufs[x].written + n * Writers(bs, x)
    {
      IterationMoves(bs, bufs, scripts, x);
    }
  }

  lemma LosesItems(bs: seq<Block>, bufs: seq<Buffer>, scripts: seq<seq<Return>>, n: int)
    requires Runnable(bs, bufs) && Fused(bs) && |scripts| == |bs|
    requires Ready(bs, bufs) && Iterate(bs, bufs, scripts).outcome.Returned? && FirstStuck(scripts, 0) == |bs|
    requires !Finishes(LastReturn(scripts)) && |bs| > 1 && Quota(bs, bufs) > 0
    ensures !Moved(bs, bufs, Behind(bs, bufs, scripts), n, n)
  {
    hide Behind; hide Quota; hide Ready; hide Iterate; hide FirstStuck; hide Fused; hide Readers; hide Writers;
    var last := |bs| - 1;
    var y, x := bs[last].outs[0].buf, bs[0].ins[0].buf;
    IterationMoves(bs, bufs, scripts, y);
    IterationMoves(bs, bufs, scripts, x);
    PortCounts(bs[last], 0);
    BlockCounts(bs, last, y);
    PortCounts(bs[0], 0);
    BlockCounts(bs[..last], 0, x);
    Positive(Quota(bs, bufs), Readers(bs[..last], x));
    if n != 0 {
      NotZero(n, Writers(bs, y));
    }
  }

  lemma NotZero(n: int, k: nat)
    requires n != 0 && k > 0
    ensures n * k != 0
  {
  }

  lemma Positive(a: nat, b: nat)
    requires a > 0 && b > 0
    ensures a * b > 0
  {
  }

  const SOME_ROOM: Buffer := Buffer(8, 5, 0, 0, 0, 0, 0, true, true, false, false)
  const ROOMS: seq<Buffer> := [SOME_ROOM, SOME_ROOM, SOME_ROOM]
  const FIRST: Block := Block([InPort(0, 0, 0)], [OutPort(1, 0, 0)], false, 0)
  const SECOND: Block := Block([InPort(1, 0, 0)], [OutPort(2, 0, 0)], false, 0)

  lemma RoomsGranted()
    ensures ReadGrant(SOME_ROOM) == Some(5) && WriteGrant(SOME_ROOM, false, 0) == Some(3)
  {
  }

  lemma FirstGranted()
    ensures FirstRefusedIn(FIRST.ins, ROOMS) == 1 && FirstRefusedOut(SECOND.outs, ROOMS, false, 0) == 1
    ensures GrantedIns(FIRST.ins, ROOMS, 1) == [InPort(0, 5, 0)]
    ensures GrantedOuts(SECOND, ROOMS, 1) == [OutPort(2, 3, 0)]
  {
    hide ReadGrant; hide WriteGrant; hide FirstRefusedIn; hide FirstRefusedOut;
    RoomsGranted();
  }

  lemma PairGranted()
    ensures Runnable([FIRST, SECOND], ROOMS) && Fused([FIRST, SECOND]) && Ready([FIRST, SECOND], ROOMS)
    ensures Granted([FIRST, SECOND], ROOMS) == [FIRST.(ins := [InPort(0, 5, 0)]), SECOND.(outs := [OutPort(2, 3, 0)])]
  {
    hide ReadGrant; hide WriteGrant; hide GrantedIns; hide GrantedOuts; hide FirstRefusedIn; hide FirstRefusedOut;
    FirstGranted();
  }

  /** Two blocks with five items to read and room for three: the first consumes three, the second reports
      insufficient items, and the three are gone. */
  lemma ItemsCanBeLost()
    ensures var bs, scripts := [FIRST, SECOND], [[Return.OK], [INSUFFICIENT_INPUT]];
      && Runnable(bs, ROOMS) && Fused(bs) && Ready(bs, ROOMS)
      && Iterate(bs, ROOMS, scripts).outcome.Returned?
      && Behind(bs, ROOMS, scripts)[0].read == 3
      && Behind(bs, ROOMS, scripts)[2].written == 5
  {
    hide Iterate; hide Apply; hide Ready; hide Fused; hide Granted; hide PortsOk;
    var bs, scripts := [FIRST, SECOND], [[Return.OK], [INSUFFICIENT_INPUT]];
    PairGranted();
    assert Attempts(scripts[0], false) == Some(1) && Attempts(scripts[1], true) == Some(1);
    assert FirstStuck(scripts, 0) == 2;
    OutcomeOf(bs, ROOMS, scripts);
    IterationMoves(bs, ROOMS, scripts, 0);
    IterationMoves(bs, ROOMS, scripts, 2);
    assert bs[..1] == [FIRST];
    assert Readers([FIRST], 0) == 1;
  }

  // ---- An internal buffer read past its end ----

  const DRAINED: Buffer := Buffer(8, 0, 0, 0, 0, 0, 0, true, true, false, false)
  const LINE: seq<Buffer> := [SOME_ROOM, DRAINED, DRAINED, SOME_ROOM]
  const THIRD: Block := Block([InPort(2, 0, 0)], [OutPort(3, 0, 0)], false, 0)
  const CHAIN: seq<Block> := [FIRST, SECOND, THIRD]

  lemma ChainEndsGranted()
    ensures FirstRefusedIn(FIRST.ins, LINE) == 1 && FirstRefusedOut(THIRD.outs, LINE, false, 0) == 1
    ensures GrantedIns(FIRST.ins, LINE, 1) == [InPort(0, 5, 0)]
    ensures GrantedOuts(THIRD, LINE, 1) == [OutPort(3, 3, 0)]
  {
    hide ReadGrant; hide WriteGrant; hide FirstRefusedIn; hide FirstRefusedOut;
    RoomsGranted();
  }

  lemma ChainGranted()
    ensures Runnable(CHAIN, LINE) && Fused(CHAIN) && Ready(CHAIN, LINE)
    ensures Granted(CHAIN, LINE) == [FIRST.(ins := [InPort(0, 5, 0)]), SECOND, THIRD.(outs := [OutPort(3, 3, 0)])]
  {
    hide ReadGrant; hide WriteGrant; hide GrantedIns; hide GrantedOuts; hide FirstRefusedIn; hide FirstRefusedOut;
    ChainEndsGranted();
  }

  lemma ChainReaders()
    ensures CHAIN[..2] == [FIRST, SECOND] && Readers([FIRST, SECOND], 1) == 1
  {
    assert [FIRST, SECOND][..1] == [FIRST];
    assert [FIRST][..0] == [];
    assert Readers([FIRST], 1) == 0;
  }

  /** Three blocks with nothing between them: the last reports insufficient items, so the second is taken to have
      read three items that the first is never taken to have written. */
  lemma InternalBufferCanBeOverrun()
    ensures var scripts := [[Return.OK], [Return.OK], [INSUFFICIENT_INPUT]];
      && Runnable(CHAIN, LINE) && Fused(CHAIN) && Ready(CHAIN, LINE)
      && Iterate(CHAIN, LINE, scripts).outcome.Returned?
      && Behind(CHAIN, LINE, scripts)[1].Available() == -3
  {
    hide Iterate; hide Apply; hide Ready; hide Fused; hide Granted; hide PortsOk; hide Readers; hide Writers;
    var scripts := [[Return.OK], [Return.OK], [INSUFFICIENT_INPUT]];
    ChainGranted();
    ChainScripts();
    OutcomeOf(CHAIN, LINE, scripts);
    IterationMoves(CHAIN, LINE, scripts, 1);
    ChainReaders();
  }

  lemma ChainScripts()
    ensures var scripts := [[Return.OK], [Return.OK], [INSUFFICIENT_INPUT]];
      FirstStuck(scripts, 0) == 3 && LastReturn(scripts) == INSUFFICIENT_INPUT
  {
    var scripts := [[Return.OK], [Return.OK], [INSUFFICIENT_INPUT]];
    assert Attempts(scripts[0], false) == Some(1) && Attempts(scripts[1], false) == Some(1);
    assert Attempts(scripts[2], true) == Some(1);
  }
}
