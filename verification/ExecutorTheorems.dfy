/** What holds for every iteration of the fused executor, whatever its blocks return. */
module ExecutorTheorems {
  import opened Messages
  import opened Returns
  import opened Widths
  import opened GraphExecutor

  // ---- Grants ----

  /** The output grant is optimal: a port is ready exactly when the buffer answers, has the space asked for and
      one whole multiple fits; it then gets the greatest multiple that space, max_fill and an int allow. */
  lemma OutputGrantIsOptimal(b: Buffer, multipleSet: bool, multiple: nat)
    requires 0 <= b.Space() < TWO_64
    requires multipleSet ==> 0 < multiple < TWO_32
    ensures var m, room := if multipleSet then multiple else 1, if b.Space() < INT_MAX then b.Space() else INT_MAX;
        var limit := if 0 < b.maxFill < room then b.maxFill else room;
        var g := WriteGrant(b, multipleSet, multiple);
      && (g.Some? <==> b.writeOk && b.Space() >= 1 && b.Space() >= b.minFill && m <= limit)
      && (g.Some? ==> g.value > 0 && IsGreatestMultiple(g.value, limit, m))
  {
    hide RoundDown; hide IsGreatestMultiple;
    var limit := FillLimit(b);
    SizeKeeps(b.Space());
    if multipleSet {
      RoundedLimit(limit, multiple);
    } else {
      FloorIsGreatest(limit, 1);
    }
  }

  lemma RoundedLimit(limit: nat, multiple: nat)
    requires limit <= INT_MAX && 0 < multiple < TWO_32
    ensures IsGreatestMultiple(RoundDown(limit, multiple), limit, multiple)
    ensures RoundDown(limit, multiple) > 0 <==> multiple <= limit
  {
    hide RoundDown;
    RoundDownExact(limit, multiple);
    if multiple <= limit {
      DivisionIs(multiple, multiple, 1, 0);
    } else {
      DivisionIs(RoundDown(limit, multiple), multiple, 0, RoundDown(limit, multiple));
    }
  }

  /** An input port is ready when the buffer answers and holds an item and min_read items, exactly when the
      conversion of min_read to int keeps it, or still asks for more than there is, or something else is
      missing. */
  lemma InputReadyExact(b: Buffer)
    requires 0 <= b.Available() <= INT_MAX && b.minRead < TWO_64
    ensures (ReadGrant(b).Some? <==> b.readOk && b.Available() >= 1 && b.Available() >= b.minRead)
      <==> b.minRead <= INT_MAX || b.Available() < ToInt(b.minRead) || b.Available() < 1 || !b.readOk
  {
  }

  /** The input grant is what is available, cut to max_read, exactly when the conversion of max_read to int
      keeps it or leaves it out of the way. */
  lemma InputGrantExact(b: Buffer)
    requires 0 <= b.Available() <= INT_MAX && b.maxRead < TWO_64
    requires ReadGrant(b).Some?
    ensures ReadGrant(b).value == (if 0 < b.maxRead < b.Available() then b.maxRead else b.Available())
      <==> b.maxRead <= INT_MAX || b.Available() <= ToInt(b.maxRead)
  {
  }

  /** Reading frees room and takes items, publishing takes room and gives items, one for one; a buffer's items and
      its room make up its capacity. */
  lemma RoomIsFreed(bufs: seq<Buffer>, x: nat, n: nat)
    requires x < |bufs|
    ensures bufs[x].Available() + bufs[x].Space() == bufs[x].capacity
    ensures var b, after := bufs[x], Apply(bufs, [PostRead(x, n)])[x];
      && after.Space() == b.Space() + n && after.Available() == b.Available() - n && after.capacity == b.capacity
    ensures var b, after := bufs[x], Apply(bufs, [PostWrite(x, n)])[x];
      && after.Space() == b.Space() - n && after.Available() == b.Available() + n && after.capacity == b.capacity
  {
    assert [PostRead(x, n)][..0] == [] && [PostWrite(x, n)][..0] == [];
  }

  /** A sync block processes the greatest number of items, in whole multiples, that its counts allow. */
  lemma SyncItemsAreGreatest(b: Block, nin: nat, nout: nat, k: nat)
    requires b.ins != [] ==> k <= nin
    requires b.ins == [] || b.outs != [] ==> k <= nout
    requires b.multipleSet && b.multiple > 0 ==> k % b.multiple == 0
    ensures var n := SyncItems(b, nin, nout);
      && k <= n && (b.ins != [] ==> n <= nin) && (b.ins == [] || b.outs != [] ==> n <= nout)
      && (b.multipleSet && b.multiple > 0 ==> n % b.multiple == 0)
  {
    hide Floor;
    if b.multipleSet && b.multiple > 0 {
      var n := if b.ins == [] then nout else if b.outs == [] || nin < nout then nin else nout;
      FloorIsGreatest(n, b.multiple);
    }
  }

  // ---- Ready ----

  /** An input port is ready: its buffer answers and holds an item and as many as its min_read asks for. */
  predicate InputReady(b: Buffer) {
    b.readOk && b.written - b.read >= 1 && (b.minRead > 0 ==> b.written - b.read >= ToInt(b.minRead))
  }

  /** An output port is ready: its buffer answers and has room for an item, for as many as its min_fill asks for,
      and for one multiple within room, an int and max_fill. */
  predicate OutputReady(b: Buffer, multipleSet: bool, multiple: nat) {
    var room := ToSize(b.capacity - (b.written - b.read));
    && b.writeOk && room >= 1 && room >= b.minFill
    && (multipleSet ==>
          && ToUInt(multiple) <= room && ToUInt(multiple) <= INT_MAX
          && (b.maxFill > 0 ==> ToUInt(multiple) <= b.maxFill))
  }

  lemma InputReadyIs(b: Buffer)
    ensures ReadGrant(b).Some? <==> InputReady(b)
  {
  }

  lemma OutputReadyIs(b: Buffer, multipleSet: bool, multiple: nat)
    requires multipleSet ==> ToUInt(multiple) != 0
    ensures WriteGrant(b, multipleSet, multiple).Some? <==> OutputReady(b, multipleSet, multiple)
  {
    hide RoundDown; hide ToUInt; hide ToSize;
    if multipleSet {
      RoundedIsPositive(FillLimit(b), multiple);
    }
  }

  lemma RoundedIsPositive(n: nat, m: nat)
    requires n <= INT_MAX && ToUInt(m) != 0
    ensures RoundDown(n, m) > 0 <==> ToUInt(m) <= n
  {
    hide RoundDown; hide Floor; hide ToUInt;
    RoundDownIs(n, m);
    if ToUInt(m) <= n {
      FloorPositive(n, ToUInt(m));
    } else {
      FloorBelowMultiple(n, ToUInt(m));
    }
  }

  /** Every input of the first block is ready. */
  predicate InputsReady(bs: seq<Block>, bufs: seq<Buffer>)
    requires Runnable(bs, bufs)
  {
    PortsInRange(bs, bufs, 0);
    forall i :: 0 <= i < |bs[0].ins| ==> InputReady(bufs[bs[0].ins[i].buf])
  }

  /** Every output of the last block is ready. */
  predicate OutputsReady(bs: seq<Block>, bufs: seq<Buffer>)
    requires Runnable(bs, bufs)
  {
    PortsInRange(bs, bufs, |bs| - 1);
    var last := bs[|bs| - 1];
    forall i :: 0 <= i < |last.outs| ==> OutputReady(bufs[last.outs[i].buf], last.multipleSet, last.multiple)
  }

  lemma PortsInRange(bs: seq<Block>, bufs: seq<Buffer>, j: nat)
    requires PortsOk(bs, bufs) && j < |bs|
    ensures forall i :: 0 <= i < |bs[j].ins| ==> bs[j].ins[i].buf < |bufs|
    ensures forall i :: 0 <= i < |bs[j].outs| ==> bs[j].outs[i].buf < |bufs|
  {
  }

  lemma InputsCheckedExactly(bs: seq<Block>, bufs: seq<Buffer>)
    requires Runnable(bs, bufs)
    ensures CheckedIns(bs, bufs).ok <==> InputsReady(bs, bufs)
  {
    hide ReadGrant; hide InputReady; hide ToUInt;
    var k := FirstRefusedIn(bs[0].ins, bufs);
    forall i | 0 <= i < |bs[0].ins|
      ensures ReadGrant(bufs[bs[0].ins[i].buf]).Some? <==> InputReady(bufs[bs[0].ins[i].buf])
    {
      InputReadyIs(bufs[bs[0].ins[i].buf]);
    }
  }

  lemma OutputsCheckedExactly(bs: seq<Block>, bufs: seq<Buffer>)
    requires Runnable(bs, bufs)
    ensures CheckedOuts(bs, bufs).ok <==> OutputsReady(bs, bufs)
  {
    hide WriteGrant; hide OutputReady; hide ToUInt;
    var last := bs[|bs| - 1];
    var k := FirstRefusedOut(last.outs, bufs, last.multipleSet, last.multiple);
    forall i | 0 <= i < |last.outs|
      ensures WriteGrant(bufs[last.outs[i].buf], last.multipleSet, last.multiple).Some?
        <==> OutputReady(bufs[last.outs[i].buf], last.multipleSet, last.multiple)
    {
      OutputReadyIs(bufs[last.outs[i].buf], last.multipleSet, last.multiple);
    }
  }

  /** An iteration is ready exactly when every input of its first block and every output of its last one is. */
  lemma ReadyExactly(bs: seq<Block>, bufs: seq<Buffer>)
    requires Runnable(bs, bufs)
    ensures Ready(bs, bufs) <==> InputsReady(bs, bufs) && OutputsReady(bs, bufs)
    ensures CheckedIns(bs, bufs).ok <==> InputsReady(bs, bufs)
  {
    hide CheckedIns; hide CheckedOuts; hide InputReady; hide OutputReady;
    InputsCheckedExactly(bs, bufs);
    OutputsCheckedExactly(CheckedIns(bs, bufs).blocks, bufs);
    SameOutputs(bs, bufs);
  }

  lemma SameOutputs(bs: seq<Block>, bufs: seq<Buffer>)
    requires Runnable(bs, bufs)
    ensures var g, last := CheckedIns(bs, bufs).blocks, |bs| - 1;
      && g[last].outs == bs[last].outs
      && g[last].multipleSet == bs[last].multipleSet && g[last].multiple == bs[last].multiple
  {
    hide FirstRefusedIn; hide GrantedIns;
  }

  // ---- Refused, returned, done ----

  /** Both checks of an iteration succeed. */
  predicate Ready(bs: seq<Block>, bufs: seq<Buffer>)
    requires Runnable(bs, bufs)
  {
    CheckedIns(bs, bufs).ok && CheckedOuts(CheckedIns(bs, bufs).blocks, bufs).ok
  }

  /** The blocks as the checks leave them. */
  function Granted(bs: seq<Block>, bufs: seq<Buffer>): (r: seq<Block>)
    requires Runnable(bs, bufs)
    ensures |r| == |bs| && Runnable(r, bufs)
  {
    CheckedOuts(CheckedIns(bs, bufs).blocks, bufs).blocks
  }

  /** An iteration that is refused calls no block, posts nothing and leaves every buffer as it was. With an input of
      the first block that is not ready it does nothing at all and returns BLKD_IN; with all of those ready and an
      output of the last block that is not it returns BLKD_OUT. */
  lemma RefusedDoesNothing(bs: seq<Block>, bufs: seq<Buffer>, scripts: seq<seq<Return>>)
    requires Runnable(bs, bufs) && |scripts| == |bs| && !(InputsReady(bs, bufs) && OutputsReady(bs, bufs))
    ensures !Ready(bs, bufs)
    ensures var r := Iterate(bs, bufs, scripts);
      && Apply(bufs, r.events) == bufs
      && (forall i :: 0 <= i < |r.events| ==> r.events[i].OutputBlocked? || r.events[i].TellDownstream?)
      && (if InputsReady(bs, bufs) then r.outcome == Returned(BLKD_OUT)
          else r.events == [] && r.outcome == Returned(BLKD_IN))
  {
    hide CheckedIns; hide CheckedOuts; hide Work; hide UnclogOuts; hide InputsReady; hide OutputsReady;
    ReadyExactly(bs, bufs);
    var ins := CheckedIns(bs, bufs);
    if ins.ok {
      var outs := CheckedOuts(ins.blocks, bufs);
      UnclogPostsNothing(outs.blocks, bufs, |bs| - 1);
      NothingApplied(bufs, UnclogOuts(outs.blocks, bufs, |bs| - 1));
      UnclogOutsOnly(outs.blocks, bufs, |bs| - 1);
    } else {
      ApplyNothing(bufs);
    }
  }

  /** The same from the checks. */
  lemma NotReadyDoesNothing(bs: seq<Block>, bufs: seq<Buffer>, scripts: seq<seq<Return>>)
    requires Runnable(bs, bufs) && |scripts| == |bs| && !Ready(bs, bufs)
    ensures var r := Iterate(bs, bufs, scripts);
      && Apply(bufs, r.events) == bufs
      && (forall i :: 0 <= i < |r.events| ==> r.events[i].OutputBlocked? || r.events[i].TellDownstream?)
      && (!CheckedIns(bs, bufs).ok ==> r.events == [] && r.outcome == Returned(BLKD_IN))
      && (CheckedIns(bs, bufs).ok ==> r.outcome == Returned(BLKD_OUT))
  {
    hide Iterate; hide InputsReady; hide OutputsReady; hide CheckedIns; hide CheckedOuts;
    ReadyExactly(bs, bufs);
    RefusedDoesNothing(bs, bufs, scripts);
  }

  lemma {:induction false} UnclogOutPortsOnly(outs: seq<OutPort>, bufs: seq<Buffer>, last: bool)
    ensures forall e :: e in UnclogOutPorts(outs, bufs, last) ==> e.OutputBlocked? || e.TellDownstream?
  {
    if outs != [] {
      UnclogOutPortsOnly(outs[..|outs| - 1], bufs, last);
    }
  }

  lemma {:induction false} UnclogOutsOnly(bs: seq<Block>, bufs: seq<Buffer>, last: int)
    ensures forall e :: e in UnclogOuts(bs, bufs, last) ==> e.OutputBlocked? || e.TellDownstream?
  {
    if bs != [] {
      UnclogOutsOnly(bs[..|bs| - 1], bufs, last);
      UnclogOutPortsOnly(bs[|bs| - 1].outs, bufs, |bs| - 1 == last);
    }
  }

  lemma OutcomeOf(bs: seq<Block>, bufs: seq<Buffer>, scripts: seq<seq<Return>>)
    requires Runnable(bs, bufs) && |scripts| == |bs| && Ready(bs, bufs)
    ensures Iterate(bs, bufs, scripts).outcome.Returned? <==> FirstStuck(scripts, 0) == |bs|
  {
    hide FirstStuck;
  }

  lemma AttemptsExactly(script: seq<Return>, last: bool)
    ensures Attempts(script, last).Some?
      <==> || OK in script || Return.DONE in script
           || (last && (INSUFFICIENT_INPUT in script || INSUFFICIENT_OUTPUT in script))
  {
    if Attempts(script, last).Some? {
      assert script[Attempts(script, last).value - 1] in script;
    }
  }

  lemma StuckExactly(scripts: seq<seq<Return>>)
    ensures FirstStuck(scripts, 0) == |scripts|
      <==> forall j :: 0 <= j < |scripts| ==> Attempts(scripts[j], j == |scripts| - 1).Some?
  {
    hide Attempts;
  }

  /** A ready iteration returns exactly when every block has an attempt that returns OK or DONE or, the last block
      only, insufficient items or room. That each wait for the last block's callback ends is taken for granted
      here. */
  lemma ReturnsExactlyWhen(bs: seq<Block>, bufs: seq<Buffer>, scripts: seq<seq<Return>>)
    requires Runnable(bs, bufs) && |scripts| == |bs| && Ready(bs, bufs)
    ensures var final := scripts[|bs| - 1];
      Iterate(bs, bufs, scripts).outcome.Returned? <==>
        && (forall j :: 0 <= j < |bs| - 1 ==> OK in scripts[j] || Return.DONE in scripts[j])
        && (|| OK in final || Return.DONE in final || INSUFFICIENT_INPUT in final || INSUFFICIENT_OUTPUT in final)
  {
    hide Iterate; hide Ready; hide PortsOk; hide Attempts;
    OutcomeOf(bs, bufs, scripts);
    StuckExactly(scripts);
    forall j | 0 <= j < |bs|
      ensures Attempts(scripts[j], j == |bs| - 1).Some?
        <==> || OK in scripts[j] || Return.DONE in scripts[j]
             || (j == |bs| - 1 && (INSUFFICIENT_INPUT in scripts[j] || INSUFFICIENT_OUTPUT in scripts[j]))
    {
      AttemptsExactly(scripts[j], j == |bs| - 1);
    }
  }

  /** An iteration reports DONE exactly when it was ready, every retry loop ended and the last block's last
      attempt returned DONE; what the other blocks returned does not show. */
  lemma DoneExactlyWhen(bs: seq<Block>, bufs: seq<Buffer>, scripts: seq<seq<Return>>)
    requires Runnable(bs, bufs) && |scripts| == |bs|
    ensures Iterate(bs, bufs, scripts).outcome == Returned(Status.DONE)
      <==> Ready(bs, bufs) && FirstStuck(scripts, 0) == |bs| && LastReturn(scripts).DONE?
  {
    hide FirstStuck; hide RanBlocks; hide WorkEvents; hide ReadPosts; hide WritePosts; hide Unclogging; hide UnclogOuts;
    hide CheckedIns; hide CheckedOuts; hide PortsOk;
    if Ready(bs, bufs) && FirstStuck(scripts, 0) == |bs| {
      WorkReports(Granted(bs, bufs), bufs, scripts);
    }
  }

  lemma WorkReports(bs: seq<Block>, bufs: seq<Buffer>, scripts: seq<seq<Return>>)
    requires Runnable(bs, bufs) && |scripts| == |bs| && FirstStuck(scripts, 0) == |bs|
    ensures Work(bs, bufs, scripts).outcome.Returned?
    ensures Work(bs, bufs, scripts).outcome.status.DONE? <==> LastReturn(scripts).DONE?
  {
    hide FirstStuck; hide RanBlocks; hide WorkEvents; hide ReadPosts; hide WritePosts; hide Unclogging; hide Attempts;
    hide PortsOk;
  }

  // ---- Publish before notify ----

  lemma {:induction false} ReadPostsOnly(bs: seq<Block>)
    ensures forall e :: e in ReadPosts(bs) ==> e.PostRead?
  {
    if bs != [] {
      ReadPostsOnly(bs[..|bs| - 1]);
    }
  }

  lemma {:induction false} WritePostsOnly(bs: seq<Block>, np: nat)
    ensures forall e :: e in WritePosts(bs, np) ==> e.PostWrite?
  {
    if bs != [] {
      WritePostsOnly(bs[..|bs| - 1], np);
    }
  }

  /** Where an event stands in an iteration: do_work, post_read, upstream, post_write, downstream and the rest. */
  function Stage(e: Event): nat {
    match e
    case DoWork(_, _) => 0
    case PostRead(_, _) => 1
    case TellUpstream(_) => 2
    case PostWrite(_, _) => 3
    case _ => 4
  }

  ghost predicate InOrder(events: seq<Event>) {
    forall i, j :: 0 <= i < j < |events| && (events[j].DoWork? || events[j].PostRead? || events[j].PostWrite?)
      ==> Stage(events[i]) <= Stage(events[j])
  }

  /** In every iteration all do_work calls come first, all post_reads before the first notification upstream and
      all post_writes before the first one downstream. */
  lemma PublishedBeforeNotified(bs: seq<Block>, bufs: seq<Buffer>, scripts: seq<seq<Return>>)
    requires Runnable(bs, bufs) && |scripts| == |bs|
    ensures InOrder(Iterate(bs, bufs, scripts).events)
  {
    if !Ready(bs, bufs) {
      NotReadyDoesNothing(bs, bufs, scripts);
    } else {
      WorkInOrder(Granted(bs, bufs), bufs, scripts);
    }
  }

  lemma WorkInOrder(bs: seq<Block>, bufs: seq<Buffer>, scripts: seq<seq<Return>>)
    requires Runnable(bs, bufs) && |scripts| == |bs|
    ensures InOrder(Work(bs, bufs, scripts).events)
  {
    hide RanBlocks;
    var last, stuck := |bs| - 1, FirstStuck(scripts, 0);
    var nin, nout := bs[0].ins[0].nItems, bs[last].outs[0].nItems;
    if stuck < |bs| {
      WorkPostsNothing(scripts, stuck + 1);
    } else {
      WorkPostsNothing(scripts, |bs|);
      RanKeepsPorts(bs, bufs, scripts);
      var ran := RanBlocks(bs, nin, nout, scripts, |bs|);
      var np := ran[last].outs[0].nProduced;
      ReadPostsOnly(ran);
      WritePostsOnly(ran, np);
      UnclogPostsNothing(ran, bufs, last);
      UnclogWorksNothing(ran, bufs, last);
      Staged(WorkEvents(scripts, |bs|), ReadPosts(ran), UpstreamNotes(|ran[0].ins|), WritePosts(ran, np),
             DownstreamNotes(|ran[last].outs|), Unclogging(ran, bufs, LastReturn(scripts)));
    }
  }

  lemma {:induction false} UnclogPortsWorkNothing(ins: seq<InPort>, bufs: seq<Buffer>, first: bool)
    ensures forall e :: e in UnclogPorts(ins, bufs, first) ==> !e.DoWork?
  {
    if ins != [] {
      UnclogPortsWorkNothing(ins[..|ins| - 1], bufs, first);
    }
  }

  lemma {:induction false} UnclogWorksNothing(bs: seq<Block>, bufs: seq<Buffer>, last: int)
    ensures forall e :: e in UnclogIns(bs, bufs) ==> !e.DoWork?
    ensures forall e :: e in UnclogOuts(bs, bufs, last) ==> !e.DoWork?
  {
    if bs != [] {
      UnclogWorksNothing(bs[..|bs| - 1], bufs, last);
      UnclogPortsWorkNothing(bs[|bs| - 1].ins, bufs, |bs| == 1);
    }
    UnclogOutsOnly(bs, bufs, last);
  }

  /** In order, and none of its events beyond stage `s`. */
  ghost predicate UpTo(events: seq<Event>, s: nat) {
    InOrder(events) && forall e :: e in events ==> Stage(e) <= s
  }

  lemma NextStage(a: seq<Event>, b: seq<Event>, s: nat, s': nat)
    requires UpTo(a, s) && s < s' && forall e :: e in b ==> Stage(e) == s'
    ensures UpTo(a + b, s')
  {
    forall i, j | 0 <= i < j < |a + b|
        && ((a + b)[j].DoWork? || (a + b)[j].PostRead? || (a + b)[j].PostWrite?)
      ensures Stage((a + b)[i]) <= Stage((a + b)[j])
    {
      if j < |a| {
        assert Stage(a[i]) <= Stage(a[j]);
      } else {
        assert b[j - |a|] in b;
        assert i < |a| ==> a[i] in a;
        assert i >= |a| ==> b[i - |a|] in b;
      }
    }
  }

  lemma Staged(work: seq<Event>, taken: seq<Event>, up: seq<Event>, given: seq<Event>, down: seq<Event>,
               unclog: seq<Event>)
    requires forall i :: 0 <= i < |work| ==> work[i].DoWork?
    requires forall e :: e in taken ==> e.PostRead?
    requires forall i :: 0 <= i < |up| ==> up[i].TellUpstream?
    requires forall e :: e in given ==> e.PostWrite?
    requires forall i :: 0 <= i < |down| ==> down[i].TellDownstream?
    requires NoPost(unclog) && forall e :: e in unclog ==> !e.DoWork?
    ensures InOrder(work + taken + up + given + down + unclog)
  {
    assert UpTo(work, 0);
    NextStage(work, taken, 0, 1);
    NextStage(work + taken, up, 1, 2);
    NextStage(work + taken + up, given, 2, 3);
    NextStage(work + taken + up + given, down, 3, 4);
    var all := work + taken + up + given + down;
    forall i, j | 0 <= i < j < |all + unclog|
        && ((all + unclog)[j].DoWork? || (all + unclog)[j].PostRead? || (all + unclog)[j].PostWrite?)
      ensures Stage((all + unclog)[i]) <= Stage((all + unclog)[j])
    {
      if j < |all| {
        assert Stage(all[i]) <= Stage(all[j]);
      }
    }
  }
}
