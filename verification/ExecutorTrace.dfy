/** What the neighbours of a fused group see of an iteration: its status, its calls and its notifications. */
module ExecutorTrace {
  import opened Messages
  import opened Returns
  import opened Widths
  import opened GraphExecutor
  import opened ExecutorTheorems
  import opened Conservation
  import PortLimits

  // ---- Status ----

  /** The first output of the last block has room that a size holds, and an output multiple that 32 bits hold. */
  predicate Ordinary(bs: seq<Block>, bufs: seq<Buffer>)
    requires Runnable(bs, bufs)
  {
    var last := bs[|bs| - 1];
    0 <= bufs[last.outs[0].buf].Space() < TWO_64 && (last.multipleSet ==> 0 < last.multiple < TWO_32)
  }

  lemma GrantIsWhole(b: Buffer, multipleSet: bool, multiple: nat)
    requires 0 <= b.Space() < TWO_64 && (multipleSet ==> 0 < multiple < TWO_32)
    requires multipleSet ==> ToUInt(multiple) != 0
    requires WriteGrant(b, multipleSet, multiple).Some?
    ensures var n := WriteGrant(b, multipleSet, multiple).value;
      n > 0 && (multipleSet ==> Floor(n, multiple) == n)
  {
    hide WriteGrant;
    OutputGrantIsOptimal(b, multipleSet, multiple);
  }

  /** A last block that reports OK has produced something, even as a source. */
  lemma SourceProduces(bs: seq<Block>, bufs: seq<Buffer>)
    requires Runnable(bs, bufs) && Ready(bs, bufs) && Ordinary(bs, bufs)
    ensures var g := Granted(bs, bufs);
      var last := g[|g| - 1];
      last.ins == [] ==> SyncItems(last, g[0].ins[0].nItems, last.outs[0].nItems) > 0
  {
    hide ReadGrant; hide WriteGrant; hide Floor;
    var last := bs[|bs| - 1];
    PortLimits.GrantsOf(bs, bufs);
    GrantIsWhole(bufs[last.outs[0].buf], last.multipleSet, last.multiple);
    GrantedMultiples(bs, bufs);
  }

  lemma GrantedMultiples(bs: seq<Block>, bufs: seq<Buffer>)
    requires Runnable(bs, bufs)
    ensures var g, last := Granted(bs, bufs), |bs| - 1;
      g[last].multipleSet == bs[last].multipleSet && g[last].multiple == bs[last].multiple
  {
  }

  /** The verdict that a return value of the last block leads to. */
  predicate Says(ret: Return, s: Status) {
    match ret
    case OK => s == READY
    case DONE => s == Status.DONE
    case INSUFFICIENT_INPUT => s == BLKD_IN
    case INSUFFICIENT_OUTPUT => s == BLKD_OUT
    case OtherReturn => false
  }

  /** The status of an iteration, in full: refused for its inputs or for its outputs, or what the last attempt of
      the last block says. */
  lemma StatusExactly(bs: seq<Block>, bufs: seq<Buffer>, scripts: seq<seq<Return>>)
    requires Runnable(bs, bufs) && |scripts| == |bs| && Ordinary(bs, bufs)
    requires Iterate(bs, bufs, scripts).outcome.Returned?
    ensures var s := Iterate(bs, bufs, scripts).outcome.status;
      && (!CheckedIns(bs, bufs).ok ==> s == BLKD_IN)
      && (CheckedIns(bs, bufs).ok && !Ready(bs, bufs) ==> s == BLKD_OUT)
      && (Ready(bs, bufs) ==> FirstStuck(scripts, 0) == |bs| && Says(LastReturn(scripts), s))
  {
    hide CheckedIns; hide CheckedOuts; hide FirstStuck; hide Work; hide Runnable;
    if Ready(bs, bufs) {
      OutcomeOf(bs, bufs, scripts);
      SourceProduces(bs, bufs);
      WorkStatus(Granted(bs, bufs), bufs, scripts);
    }
  }

  lemma WorkStatus(g: seq<Block>, bufs: seq<Buffer>, scripts: seq<seq<Return>>)
    requires Runnable(g, bufs) && |scripts| == |g| && FirstStuck(scripts, 0) == |g|
    requires var last := g[|g| - 1];
      last.ins == [] ==> SyncItems(last, g[0].ins[0].nItems, last.outs[0].nItems) > 0
    ensures Work(g, bufs, scripts).outcome.Returned?
    ensures var s := Work(g, bufs, scripts).outcome.status;
      Says(LastReturn(scripts), s)
  {
    hide WorkEvents; hide ReadPosts; hide WritePosts; hide Unclogging; hide FirstStuck; hide PortsOk; hide SyncItems;
    hide UpstreamNotes; hide DownstreamNotes; hide Ran; hide Attempts;
    var last := |g| - 1;
    RanBlock(g[last], g[0].ins[0].nItems, g[last].outs[0].nItems, scripts[last], true);
    RunsKeepWiring(g, g[0].ins[0].nItems, g[last].outs[0].nItems, scripts, |g|);
  }

  /** The first attempt of the last block that returns anything but a retry decides the status: with the other
      blocks' loops ending, the iteration returns what it says. */
  lemma LastDecides(bs: seq<Block>, bufs: seq<Buffer>, scripts: seq<seq<Return>>, n: nat)
    requires Runnable(bs, bufs) && |scripts| == |bs| && Ordinary(bs, bufs) && Ready(bs, bufs)
    requires forall j :: 0 <= j < |bs| - 1 ==> Return.OK in scripts[j] || Return.DONE in scripts[j]
    requires var final := scripts[|bs| - 1];
      n < |final| && !final[n].OtherReturn? && forall i :: 0 <= i < n ==> final[i].OtherReturn?
    ensures var o := Iterate(bs, bufs, scripts).outcome;
      o.Returned? && Says(scripts[|bs| - 1][n], o.status)
  {
    hide Iterate; hide Ready; hide PortsOk; hide Says; hide Attempts; hide Ordinary; hide FirstStuck; hide CheckedIns;
    var final := scripts[|bs| - 1];
    OneOfFour(final, n);
    ReturnsExactlyWhen(bs, bufs, scripts);
    StatusExactly(bs, bufs, scripts);
    AttemptsIs(final, true, n + 1);
  }

  lemma OneOfFour(script: seq<Return>, n: nat)
    requires n < |script| && !script[n].OtherReturn?
    ensures || Return.OK in script || Return.DONE in script
            || INSUFFICIENT_INPUT in script || INSUFFICIENT_OUTPUT in script
  {
    assert script[n] in script;
  }

  // ---- Counts ----

  /** The return value that ends the retry loop of block `j`. */
  function EndOf(scripts: seq<seq<Return>>, j: nat): Return
    requires j < |scripts| && Attempts(scripts[j], j == |scripts| - 1).Some?
  {
    scripts[j][Attempts(scripts[j], j == |scripts| - 1).value - 1]
  }

  /** Behind an iteration that was ready and returned, every port of every block has been given the items of the
      first input and of the last output, and the ports of a block have moved what a sync block processes of those
      counts, or nothing when it did not finish. */
  lemma PortsExactly(bs: seq<Block>, bufs: seq<Buffer>, scripts: seq<seq<Return>>, j: nat)
    requires Runnable(bs, bufs) && |scripts| == |bs| && j < |bs|
    requires Ready(bs, bufs) && Iterate(bs, bufs, scripts).outcome.Returned?
    ensures FirstStuck(scripts, 0) == |bs|
    ensures var last, r := bs[|bs| - 1], Iterate(bs, bufs, scripts).blocks;
      var i, o := ReadGrant(bufs[bs[0].ins[0].buf]),
                  WriteGrant(bufs[last.outs[0].buf], last.multipleSet, last.multiple);
      && i.Some? && o.Some? && |r| == |bs| && |r[j].ins| == |bs[j].ins| && |r[j].outs| == |bs[j].outs|
      && var q := if Finishes(EndOf(scripts, j)) then SyncItems(bs[j], i.value, o.value) else 0;
      && (forall p :: 0 <= p < |r[j].ins| ==> r[j].ins[p].nItems == i.value && r[j].ins[p].nConsumed == q)
      && (forall p :: 0 <= p < |r[j].outs| ==> r[j].outs[p].nItems == o.value && r[j].outs[p].nProduced == q)
  {
    hide Iterate; hide Granted; hide Ready; hide ReadGrant; hide WriteGrant; hide FirstStuck; hide Attempts;
    hide PortsOk; hide Ran; hide SyncItems; hide Finishes; hide Work; hide SameWiring;
    ReadyIsWork(bs, bufs, scripts);
    PortLimits.GrantsOf(bs, bufs);
    GrantedBlock(bs, bufs, scripts, j);
    GrantedSync(bs, bufs, j);
    var g, last := Granted(bs, bufs), |bs| - 1;
    BlockPorts(g[j], g[0].ins[0].nItems, g[last].outs[0].nItems, scripts[j], j == last);
  }

  lemma SameSync(a: Block, b: Block)
    requires |a.ins| == |b.ins| && |a.outs| == |b.outs| && a.multipleSet == b.multipleSet && a.multiple == b.multiple
    ensures forall nin: nat, nout: nat :: SyncItems(a, nin, nout) == SyncItems(b, nin, nout)
  {
  }

  lemma GrantedSync(bs: seq<Block>, bufs: seq<Buffer>, j: nat)
    requires Runnable(bs, bufs) && j < |bs|
    ensures var g := Granted(bs, bufs);
      && |g[j].ins| == |bs[j].ins| && |g[j].outs| == |bs[j].outs|
      && forall nin: nat, nout: nat :: SyncItems(g[j], nin, nout) == SyncItems(bs[j], nin, nout)
  {
    hide SyncItems; hide Granted; hide Runnable;
    GrantedWiring(bs, bufs);
    SameSync(Granted(bs, bufs)[j], bs[j]);
  }

  lemma GrantedBlock(bs: seq<Block>, bufs: seq<Buffer>, scripts: seq<seq<Return>>, j: nat)
    requires Runnable(bs, bufs) && |scripts| == |bs| && j < |bs| && FirstStuck(scripts, 0) == |bs|
    ensures var g, last := Granted(bs, bufs), |bs| - 1;
      var r := Work(g, bufs, scripts).blocks;
      && |r| == |bs|
      && r[j] == Ran(g[j], g[0].ins[0].nItems, g[last].outs[0].nItems, scripts[j], j == last)
  {
    hide Granted; hide FirstStuck; hide Ran; hide WorkEvents; hide ReadPosts; hide WritePosts; hide Unclogging;
    hide StatusOf; hide UpstreamNotes; hide DownstreamNotes;
  }

  lemma BlockPorts(b: Block, nin: nat, nout: nat, script: seq<Return>, last: bool)
    requires Attempts(script, last).Some?
    ensures var r, ret := Ran(b, nin, nout, script, last), script[Attempts(script, last).value - 1];
      var q := if Finishes(ret) then SyncItems(b, nin, nout) else 0;
      && |r.ins| == |b.ins| && |r.outs| == |b.outs|
      && (forall p :: 0 <= p < |r.ins| ==> r.ins[p].nItems == nin && r.ins[p].nConsumed == q)
      && (forall p :: 0 <= p < |r.outs| ==> r.outs[p].nItems == nout && r.outs[p].nProduced == q)
  {
  }

  // ---- Notifications and callbacks, counted ----

  /** How often `e` occurs. */
  function Times(events: seq<Event>, e: Event): nat {
    multiset(events)[e]
  }

  lemma TimesOf(a: seq<Event>, b: seq<Event>, x: Event, e: Event)
    ensures Times(a + b, e) == Times(a, e) + Times(b, e)
    ensures Times([x], e) == If(x == e) && Times([], e) == 0
  {
  }

  lemma NeverThere(events: seq<Event>, e: Event)
    requires e !in events
    ensures Times(events, e) == 0
  {
  }

  lemma {:induction false} Numbered(n: nat, i: nat)
    ensures Times(UpstreamNotes(n), TellUpstream(i)) == If(i < n)
    ensures Times(DownstreamNotes(n), TellDownstream(i)) == If(i < n)
  {
    if n > 0 {
      Numbered(n - 1, i);
      assert UpstreamNotes(n) == UpstreamNotes(n - 1) + [TellUpstream(n - 1)];
      assert DownstreamNotes(n) == DownstreamNotes(n - 1) + [TellDownstream(n - 1)];
    }
  }

  lemma {:induction false} OutPortsCounted(outs: seq<OutPort>, bufs: seq<Buffer>, last: bool, e: Event)
    ensures Times(UnclogOutPorts(outs, bufs, last), e) ==
      match e
      case OutputBlocked(x) => PortsOut(outs, x)
      case TellDownstream(i) => If(last && i < |outs| && outs[i].buf < |bufs| && bufs[outs[i].buf].unclogsOutput)
      case _ => 0
  {
    hide Times;
    TimesOf([], [], e, e);
    if outs != [] {
      var n := |outs| - 1;
      var told := if last && outs[n].buf < |bufs| && bufs[outs[n].buf].unclogsOutput then [TellDownstream(n)] else [];
      OutPortsCounted(outs[..n], bufs, last, e);
      TimesOf(UnclogOutPorts(outs[..n], bufs, last), [OutputBlocked(outs[n].buf)], OutputBlocked(outs[n].buf), e);
      TimesOf(UnclogOutPorts(outs[..n], bufs, last) + [OutputBlocked(outs[n].buf)], told, TellDownstream(n), e);
    }
  }

  lemma {:induction false} InPortsCounted(ins: seq<InPort>, bufs: seq<Buffer>, first: bool, e: Event)
    ensures Times(UnclogPorts(ins, bufs, first), e) ==
      match e
      case InputBlocked(x) => PortsIn(ins, x)
      case TellUpstream(i) => If(first && i < |ins| && ins[i].buf < |bufs| && bufs[ins[i].buf].unclogsInput)
      case _ => 0
  {
    hide Times;
    TimesOf([], [], e, e);
    if ins != [] {
      var n := |ins| - 1;
      var told := if first && ins[n].buf < |bufs| && bufs[ins[n].buf].unclogsInput then [TellUpstream(n)] else [];
      InPortsCounted(ins[..n], bufs, first, e);
      TimesOf(UnclogPorts(ins[..n], bufs, first), [InputBlocked(ins[n].buf)], InputBlocked(ins[n].buf), e);
      TimesOf(UnclogPorts(ins[..n], bufs, first) + [InputBlocked(ins[n].buf)], told, TellUpstream(n), e);
    }
  }

  lemma {:induction false} OutsCounted(bs: seq<Block>, bufs: seq<Buffer>, n: nat, e: Event)
    requires bs != [] && n <= |bs|
    ensures var last := bs[|bs| - 1];
      Times(UnclogOuts(bs[..n], bufs, |bs| - 1), e) ==
        match e
        case OutputBlocked(x) => Writers(bs[..n], x)
        case TellDownstream(i) =>
          If(n == |bs| && i < |last.outs| && last.outs[i].buf < |bufs| && bufs[last.outs[i].buf].unclogsOutput)
        case _ => 0
  {
    hide UnclogOutPorts; hide PortsOut; hide Times;
    TimesOf([], [], e, e);
    if n > 0 {
      assert bs[..n][..n - 1] == bs[..n - 1];
      OutsCounted(bs, bufs, n - 1, e);
      OutPortsCounted(bs[n - 1].outs, bufs, n == |bs|, e);
      TimesOf(UnclogOuts(bs[..n - 1], bufs, |bs| - 1), UnclogOutPorts(bs[n - 1].outs, bufs, n == |bs|), e, e);
    }
  }

  lemma {:induction false} InsCounted(bs: seq<Block>, bufs: seq<Buffer>, e: Event)
    ensures Times(UnclogIns(bs, bufs), e) ==
      match e
      case InputBlocked(x) => Readers(bs, x)
      case TellUpstream(i) =>
        If(bs != [] && i < |bs[0].ins| && bs[0].ins[i].buf < |bufs| && bufs[bs[0].ins[i].buf].unclogsInput)
      case _ => 0
  {
    hide UnclogPorts; hide PortsIn; hide Times;
    TimesOf([], [], e, e);
    if bs != [] {
      InsCounted(bs[..|bs| - 1], bufs, e);
      InPortsCounted(bs[|bs| - 1].ins, bufs, |bs| == 1, e);
      TimesOf(UnclogIns(bs[..|bs| - 1], bufs), UnclogPorts(bs[|bs| - 1].ins, bufs, |bs| == 1), e, e);
    }
  }

  /** The iteration ends for want of items, or for want of room. */
  predicate WantsItems(bs: seq<Block>, bufs: seq<Buffer>, scripts: seq<seq<Return>>)
    requires Runnable(bs, bufs) && |scripts| == |bs|
  {
    Ready(bs, bufs) && FirstStuck(scripts, 0) == |bs| && LastReturn(scripts).INSUFFICIENT_INPUT?
  }

  predicate WantsRoom(bs: seq<Block>, bufs: seq<Buffer>, scripts: seq<seq<Return>>)
    requires Runnable(bs, bufs) && |scripts| == |bs|
  {
    if Ready(bs, bufs) then FirstStuck(scripts, 0) == |bs| && LastReturn(scripts).INSUFFICIENT_OUTPUT?
    else CheckedIns(bs, bufs).ok
  }

  /** Calls for want of items: the callback of every input of every block, once a port, and a notification on
      every input of the first block where it helped. */
  function InCalls(bs: seq<Block>, bufs: seq<Buffer>, e: Event): nat
    requires Runnable(bs, bufs)
  {
    match e
    case InputBlocked(x) => Readers(bs, x)
    case TellUpstream(i) => InRange(bs, bufs); If(i < |bs[0].ins| && bufs[bs[0].ins[i].buf].unclogsInput)
    case _ => 0
  }

  /** Calls for want of room: the same for the outputs, downstream on those of the last block. */
  function OutCalls(bs: seq<Block>, bufs: seq<Buffer>, e: Event): nat
    requires Runnable(bs, bufs)
  {
    match e
    case OutputBlocked(x) => Writers(bs, x)
    case TellDownstream(i) =>
      InRange(bs, bufs);
      var last := bs[|bs| - 1];
      If(i < |last.outs| && bufs[last.outs[i].buf].unclogsOutput)
    case _ => 0
  }

  lemma InRange(bs: seq<Block>, bufs: seq<Buffer>)
    requires Runnable(bs, bufs)
    ensures forall i :: 0 <= i < |bs[0].ins| ==> bs[0].ins[i].buf < |bufs|
    ensures var last := bs[|bs| - 1]; forall i :: 0 <= i < |last.outs| ==> last.outs[i].buf < |bufs|
  {
  }

  /** The notification behind published items: on every input of the first block, every output of the last. */
  predicate IsNotice(bs: seq<Block>, e: Event)
    requires bs != []
  {
    (e.TellUpstream? && e.port < |bs[0].ins|) || (e.TellDownstream? && e.port < |bs[|bs| - 1].outs|)
  }

  predicate IsPost(e: Event) { e.PostRead? || e.PostWrite? }

  lemma SameCalls(a: seq<Block>, bs: seq<Block>, bufs: seq<Buffer>, e: Event)
    requires Runnable(a, bufs) && Runnable(bs, bufs) && SameWiring(a, bs)
    ensures InCalls(a, bufs, e) == InCalls(bs, bufs, e) && OutCalls(a, bufs, e) == OutCalls(bs, bufs, e)
    ensures IsNotice(a, e) <==> IsNotice(bs, e)
  {
    hide Readers; hide Writers; hide PortsOk;
    if e.InputBlocked? || e.OutputBlocked? {
      SameCounts(a, bs, e.buf);
    }
  }

  lemma UnclogCalls(bs: seq<Block>, bufs: seq<Buffer>, e: Event)
    requires Runnable(bs, bufs)
    ensures Times(UnclogIns(bs, bufs), e) == InCalls(bs, bufs, e)
    ensures Times(UnclogOuts(bs, bufs, |bs| - 1), e) == OutCalls(bs, bufs, e)
  {
    hide Times; hide Readers; hide Writers; hide PortsOk; hide UnclogIns; hide UnclogOuts;
    InRange(bs, bufs);
    assert bs[..|bs|] == bs;
    InsCounted(bs, bufs, e);
    OutsCounted(bs, bufs, |bs|, e);
  }

  /** The stages of an iteration in front of the blocked callbacks hold one notification a port. */
  lemma NoticesCounted(scripts: seq<seq<Return>>, ran: seq<Block>, np: nat, e: Event)
    requires ran != [] && |scripts| == |ran| && !e.DoWork? && !IsPost(e)
    ensures Times(WorkEvents(scripts, |ran|) + ReadPosts(ran) + UpstreamNotes(|ran[0].ins|) + WritePosts(ran, np)
                  + DownstreamNotes(|ran[|ran| - 1].outs|), e) == If(IsNotice(ran, e))
  {
    hide Times; hide WorkEvents; hide ReadPosts; hide WritePosts;
    var work, taken, given := WorkEvents(scripts, |ran|), ReadPosts(ran), WritePosts(ran, np);
    var up, down := UpstreamNotes(|ran[0].ins|), DownstreamNotes(|ran[|ran| - 1].outs|);
    WorkPostsNothing(scripts, |ran|);
    ReadPostsOnly(ran);
    WritePostsOnly(ran, np);
    NeverThere(work, e);
    NeverThere(taken, e);
    NeverThere(given, e);
    TimesOf(work, taken, e, e);
    TimesOf(work + taken, up, e, e);
    TimesOf(work + taken + up, given, e, e);
    TimesOf(work + taken + up + given, down, e, e);
    NotesCounted(|ran[0].ins|, |ran[|ran| - 1].outs|, e);
  }

  lemma NotesCounted(n: nat, m: nat, e: Event)
    ensures Times(UpstreamNotes(n), e) == If(e.TellUpstream? && e.port < n)
    ensures Times(DownstreamNotes(m), e) == If(e.TellDownstream? && e.port < m)
  {
    hide Times;
    if e.TellUpstream? {
      Numbered(n, e.port);
    } else {
      NeverThere(UpstreamNotes(n), e);
    }
    if e.TellDownstream? {
      Numbered(m, e.port);
    } else {
      NeverThere(DownstreamNotes(m), e);
    }
  }

  lemma WorkCounted(g: seq<Block>, bufs: seq<Buffer>, scripts: seq<seq<Return>>, e: Event)
    requires Runnable(g, bufs) && |scripts| == |g| && FirstStuck(scripts, 0) == |g| && !e.DoWork? && !IsPost(e)
    ensures Times(Work(g, bufs, scripts).events, e) == If(IsNotice(g, e))
      + (if LastReturn(scripts).INSUFFICIENT_INPUT? then InCalls(g, bufs, e) else 0)
      + (if LastReturn(scripts).INSUFFICIENT_OUTPUT? then OutCalls(g, bufs, e) else 0)
  {
    hide Times; hide WorkEvents; hide ReadPosts; hide WritePosts; hide FirstStuck; hide PortsOk; hide RanBlocks;
    hide StatusOf; hide UpstreamNotes; hide DownstreamNotes; hide LastReturn; hide UnclogIns; hide UnclogOuts;
    hide InCalls; hide OutCalls; hide IsNotice;
    var last, ret := |g| - 1, LastReturn(scripts);
    var ran := RanBlocks(g, g[0].ins[0].nItems, g[last].outs[0].nItems, scripts, |g|);
    RanKeepsPorts(g, bufs, scripts);
    RunsKeepWiring(g, g[0].ins[0].nItems, g[last].outs[0].nItems, scripts, |g|);
    SameCalls(ran, g, bufs, e);
    var np := ran[last].outs[0].nProduced;
    var head := WorkEvents(scripts, |ran|) + ReadPosts(ran) + UpstreamNotes(|ran[0].ins|) + WritePosts(ran, np)
      + DownstreamNotes(|ran[last].outs|);
    NoticesCounted(scripts, ran, np, e);
    UnclogCalls(ran, bufs, e);
    TimesOf(head, Unclogging(ran, bufs, ret), e, e);
    assert Work(g, bufs, scripts).events == head + Unclogging(ran, bufs, ret);
  }

  /** How often an iteration makes each call that is no post and no do_work: one notification a port when it was
      ready, and for want of items or of room one callback a port of the group, with one more notification where
      it helped. Nothing else, and nothing twice. */
  lemma CallsCounted(bs: seq<Block>, bufs: seq<Buffer>, scripts: seq<seq<Return>>, e: Event)
    requires Runnable(bs, bufs) && |scripts| == |bs| && !e.DoWork? && !IsPost(e)
    requires Iterate(bs, bufs, scripts).outcome.Returned?
    ensures Times(Iterate(bs, bufs, scripts).events, e) == If(Ready(bs, bufs) && IsNotice(bs, e))
      + (if WantsItems(bs, bufs, scripts) then InCalls(bs, bufs, e) else 0)
      + (if WantsRoom(bs, bufs, scripts) then OutCalls(bs, bufs, e) else 0)
  {
    hide Times; hide FirstStuck; hide PortsOk; hide LastReturn; hide Work; hide InCalls; hide OutCalls;
    hide IsNotice; hide CheckedIns; hide CheckedOuts; hide UnclogOuts;
    TimesOf([], [], e, e);
    var g := Granted(bs, bufs);
    GrantedWiring(bs, bufs);
    SameCalls(g, bs, bufs, e);
    if Ready(bs, bufs) {
      OutcomeOf(bs, bufs, scripts);
      WorkCounted(g, bufs, scripts, e);
    } else if CheckedIns(bs, bufs).ok {
      UnclogCalls(g, bufs, e);
    }
  }

  lemma GrantedWiring(bs: seq<Block>, bufs: seq<Buffer>)
    requires Runnable(bs, bufs)
    ensures SameWiring(Granted(bs, bufs), bs)
  {
    hide CheckedIns; hide CheckedOuts;
    var b1 := CheckedIns(bs, bufs).blocks;
    ChecksKeepWiring(bs, bufs);
    ChecksKeepWiring(b1, bufs);
    SameWiringChain(CheckedOuts(b1, bufs).blocks, b1, bs);
  }

  /** A ready iteration makes input-blocked callbacks exactly when the last block reported insufficient items, and
      output-blocked ones exactly when it reported insufficient room. */
  lemma UnclogsExactlyWhen(bs: seq<Block>, bufs: seq<Buffer>, scripts: seq<seq<Return>>)
    requires Runnable(bs, bufs) && |scripts| == |bs|
    requires Ready(bs, bufs) && Iterate(bs, bufs, scripts).outcome.Returned?
    ensures FirstStuck(scripts, 0) == |bs|
    ensures var events := Iterate(bs, bufs, scripts).events;
      && ((exists x :: InputBlocked(x) in events) <==> LastReturn(scripts).INSUFFICIENT_INPUT?)
      && ((exists x :: OutputBlocked(x) in events) <==> LastReturn(scripts).INSUFFICIENT_OUTPUT?)
  {
    hide Iterate; hide Ready; hide FirstStuck; hide PortsOk; hide LastReturn; hide Readers; hide Writers;
    hide PortsIn; hide PortsOut;
    var events, last := Iterate(bs, bufs, scripts).events, bs[|bs| - 1];
    OutcomeOf(bs, bufs, scripts);
    forall x
      ensures InputBlocked(x) in events <==> LastReturn(scripts).INSUFFICIENT_INPUT? && Readers(bs, x) > 0
      ensures OutputBlocked(x) in events <==> LastReturn(scripts).INSUFFICIENT_OUTPUT? && Writers(bs, x) > 0
    {
      CallsCounted(bs, bufs, scripts, InputBlocked(x));
      CallsCounted(bs, bufs, scripts, OutputBlocked(x));
    }
    PortCounts(bs[0], 0);
    BlockCounts(bs, 0, bs[0].ins[0].buf);
    PortCounts(last, 0);
    BlockCounts(bs, |bs| - 1, last.outs[0].buf);
  }

  // ---- do_work ----

  /** What block `j` has returned, call by call. */
  function ReturnsOf(events: seq<Event>, j: nat): (r: seq<Return>) {
    if events == [] then []
    else
      var e := events[|events| - 1];
      ReturnsOf(events[..|events| - 1], j) + if e.DoWork? && e.block == j then [e.ret] else []
  }

  /** The attempts that the retry loop of a block makes. */
  function Tried(script: seq<Return>, last: bool): seq<Return> {
    match Attempts(script, last)
    case None => script
    case Some(n) => script[..n]
  }

  lemma {:induction false} ReturnsConcat(a: seq<Event>, b: seq<Event>, j: nat)
    ensures ReturnsOf(a + b, j) == ReturnsOf(a, j) + ReturnsOf(b, j)
  {
    if b == [] {
      assert a + b == a;
    } else {
      assert (a + b)[..|a + b| - 1] == a + b[..|b| - 1];
      ReturnsConcat(a, b[..|b| - 1], j);
    }
  }

  lemma {:induction false} NoReturns(events: seq<Event>, j: nat)
    requires forall e :: e in events ==> !(e.DoWork? && e.block == j)
    ensures ReturnsOf(events, j) == []
  {
    if events != [] {
      NoReturns(events[..|events| - 1], j);
    }
  }

  lemma {:induction false} AllReturns(rets: seq<Return>, j: nat)
    ensures ReturnsOf(seq(|rets|, i requires 0 <= i < |rets| => DoWork(j, rets[i])), j) == rets
  {
    if rets != [] {
      var n := |rets| - 1;
      var all, front := seq(|rets|, i requires 0 <= i < |rets| => DoWork(j, rets[i])),
        seq(n, i requires 0 <= i < n => DoWork(j, rets[..n][i]));
      AllReturns(rets[..n], j);
      assert all[..n] == front;
      assert rets == rets[..n] + [rets[n]];
    }
  }

  lemma CallsReturn(j: nat, script: seq<Return>, last: bool)
    ensures ReturnsOf(Calls(j, script, last), j) == Tried(script, last)
    ensures forall k: nat :: k != j ==> ReturnsOf(Calls(j, script, last), k) == []
  {
    hide ReturnsOf;
    var rets := Tried(script, last);
    AllReturns(rets, j);
    assert Calls(j, script, last) == seq(|rets|, i requires 0 <= i < |rets| => DoWork(j, rets[i]));
    forall k: nat | k != j
      ensures ReturnsOf(Calls(j, script, last), k) == []
    {
      NoReturns(Calls(j, script, last), k);
    }
  }

  lemma {:induction false} WorkReturns(scripts: seq<seq<Return>>, n: nat, j: nat)
    requires n <= |scripts|
    ensures ReturnsOf(WorkEvents(scripts, n), j) == if j < n then Tried(scripts[j], j == |scripts| - 1) else []
  {
    hide Calls; hide Tried;
    if n > 0 {
      WorkReturns(scripts, n - 1, j);
      ReturnsConcat(WorkEvents(scripts, n - 1), Calls(n - 1, scripts[n - 1], n == |scripts|), j);
      CallsReturn(n - 1, scripts[n - 1], n == |scripts|);
    }
  }

  /** Calls of do_work stand in block order. */
  ghost predicate InBlockOrder(events: seq<Event>) {
    forall i, j :: 0 <= i < j < |events| && events[i].DoWork? && events[j].DoWork? ==>
      events[i].block <= events[j].block
  }

  lemma {:induction false} WorkInBlockOrder(scripts: seq<seq<Return>>, n: nat)
    requires n <= |scripts|
    ensures InBlockOrder(WorkEvents(scripts, n))
    ensures forall e :: e in WorkEvents(scripts, n) ==> e.DoWork? && e.block < n
  {
    hide Attempts;
    if n > 0 {
      WorkInBlockOrder(scripts, n - 1);
      var calls := Calls(n - 1, scripts[n - 1], n == |scripts|);
      assert forall e :: e in calls ==> e.DoWork? && e.block == n - 1;
    }
  }

  lemma WorkComesFirst(g: seq<Block>, bufs: seq<Buffer>, scripts: seq<seq<Return>>) returns (tail: seq<Event>)
    requires Runnable(g, bufs) && |scripts| == |g|
    ensures var stuck := FirstStuck(scripts, 0);
      Work(g, bufs, scripts).events == WorkEvents(scripts, if stuck < |g| then stuck + 1 else |g|) + tail
    ensures forall e :: e in tail ==> !e.DoWork?
  {
    hide WorkEvents; hide ReadPosts; hide WritePosts; hide FirstStuck; hide PortsOk; hide RanBlocks; hide StatusOf;
    hide LastReturn; hide UnclogIns; hide UnclogOuts;
    if FirstStuck(scripts, 0) < |g| {
      tail := [];
    } else {
      var last := |g| - 1;
      var ran := RanBlocks(g, g[0].ins[0].nItems, g[last].outs[0].nItems, scripts, |g|);
      RanKeepsPorts(g, bufs, scripts);
      var np := ran[last].outs[0].nProduced;
      ReadPostsOnly(ran);
      WritePostsOnly(ran, np);
      UnclogWorksNothing(ran, bufs, last);
      tail := ReadPosts(ran) + UpstreamNotes(|ran[0].ins|) + WritePosts(ran, np) + DownstreamNotes(|ran[last].outs|)
        + Unclogging(ran, bufs, LastReturn(scripts));
    }
  }

  lemma OrderedBefore(work: seq<Event>, tail: seq<Event>)
    requires InBlockOrder(work) && forall e :: e in tail ==> !e.DoWork?
    ensures InBlockOrder(work + tail)
  {
    assert forall k :: 0 <= k < |tail| ==> !tail[k].DoWork?;
  }

  lemma ReadyCalls(bs: seq<Block>, bufs: seq<Buffer>, scripts: seq<seq<Return>>)
    requires Runnable(bs, bufs) && |scripts| == |bs| && Ready(bs, bufs)
    ensures var events, stuck := Iterate(bs, bufs, scripts).events, FirstStuck(scripts, 0);
      && InBlockOrder(events)
      && forall j: nat :: ReturnsOf(events, j) ==
           if j < |bs| && j <= stuck then Tried(scripts[j], j == |bs| - 1) else []
  {
    hide FirstStuck; hide PortsOk; hide Work; hide Granted; hide Ready; hide WorkEvents; hide Tried; hide ReturnsOf;
    hide InBlockOrder; hide Iterate;
    ReadyIsWork(bs, bufs, scripts);
    var events, stuck := Iterate(bs, bufs, scripts).events, FirstStuck(scripts, 0);
    var tail := WorkComesFirst(Granted(bs, bufs), bufs, scripts);
    var n := if stuck < |bs| then stuck + 1 else |bs|;
    WorkInBlockOrder(scripts, n);
    OrderedBefore(WorkEvents(scripts, n), tail);
    forall j: nat
      ensures ReturnsOf(events, j) == if j < n then Tried(scripts[j], j == |bs| - 1) else []
    {
      WorkReturns(scripts, n, j);
      ReturnsConcat(WorkEvents(scripts, n), tail, j);
      NoReturns(tail, j);
    }
  }

  /** The do_work calls of every iteration: none when it is refused; otherwise block by block in order, each block
      exactly as often as its retry loop asks, up to the one whose loop does not end. */
  lemma CalledInOrder(bs: seq<Block>, bufs: seq<Buffer>, scripts: seq<seq<Return>>)
    requires Runnable(bs, bufs) && |scripts| == |bs|
    ensures var events := Iterate(bs, bufs, scripts).events;
      && InBlockOrder(events)
      && forall j: nat :: ReturnsOf(events, j) ==
           if Ready(bs, bufs) && j < |bs| && j <= FirstStuck(scripts, 0) then Tried(scripts[j], j == |bs| - 1) else []
  {
    hide FirstStuck; hide PortsOk; hide Ready; hide Iterate; hide Tried; hide ReturnsOf;
    var events := Iterate(bs, bufs, scripts).events;
    if Ready(bs, bufs) {
      ReadyCalls(bs, bufs, scripts);
    } else {
      NotReadyDoesNothing(bs, bufs, scripts);
      forall j: nat
        ensures ReturnsOf(events, j) == []
      {
        NoReturns(events, j);
      }
    }
  }
}
