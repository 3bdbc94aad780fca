/** The executor as it is written: loops over ports and blocks that update work_io records and buffers. */
module ExecutorObject {
  import opened Messages
  import opened Returns
  import opened Widths
  import opened Options
  import opened GraphExecutor
  import opened ExecutorTheorems

  lemma InputLimits(b: Buffer)
    ensures 0 <= b.Available() <= INT_MAX && b.minRead <= INT_MAX && b.maxRead <= INT_MAX ==>
      && (ReadGrant(b).Some? <==> b.readOk && b.Available() >= 1 && b.Available() >= b.minRead)
      && (ReadGrant(b).Some? ==>
            ReadGrant(b).value == if 0 < b.maxRead < b.Available() then b.maxRead else b.Available())
  {
    if 0 <= b.Available() <= INT_MAX && b.minRead <= INT_MAX && b.maxRead <= INT_MAX {
      InputReadyExact(b);
      if ReadGrant(b).Some? {
        InputGrantExact(b);
      }
    }
  }

  lemma OutputLimits(b: Buffer, multipleSet: bool, multiple: nat)
    requires multipleSet ==> ToUInt(multiple) != 0
    ensures var n, m := b.Space(), if multipleSet then multiple else 1;
      var room := if n < INT_MAX then n else INT_MAX;
      var limit, g := if 0 < b.maxFill < room then b.maxFill else room, WriteGrant(b, multipleSet, multiple);
      0 <= n < TWO_64 && (multipleSet ==> multiple < TWO_32) ==>
        && (g.Some? <==> b.writeOk && n >= 1 && n >= b.minFill && m <= limit)
        && (g.Some? ==> g.value > 0 && IsGreatestMultiple(g.value, limit, m))
  {
    hide WriteGrant; hide IsGreatestMultiple;
    if 0 <= b.Space() < TWO_64 && (multipleSet ==> multiple < TWO_32) {
      OutputGrantIsOptimal(b, multipleSet, multiple);
    }
  }

  class Executor {
    var blocks: seq<Block>
    var bufs: seq<Buffer>
    var events: seq<Event>   // the calls the executor has made, oldest first

    constructor (blocks: seq<Block>, bufs: seq<Buffer>)
      ensures this.blocks == blocks && this.bufs == bufs && events == []
    {
      this.blocks, this.bufs, events := blocks, bufs, [];
    }

    /** One input port of the first block. With limits that an int holds it is granted what is available, cut to
        max_read, when the buffer answers and holds an item and min_read items; otherwise it is not ready. */
    method QueryInput(buf: Buffer) returns (grant: Option<nat>)
      ensures grant == ReadGrant(buf)
      ensures var n := buf.Available();
        0 <= n <= INT_MAX && buf.minRead <= INT_MAX && buf.maxRead <= INT_MAX ==>
          && (grant.Some? <==> buf.readOk && n >= 1 && n >= buf.minRead)
          && (grant.Some? ==> grant.value == if 0 < buf.maxRead < n then buf.maxRead else n)
    {
      InputLimits(buf);
      var n := buf.Available();
      if !buf.readOk {
        return None;
      }
      if n < 1 || (buf.minRead > 0 && n < ToInt(buf.minRead)) {
        return None;
      }
      if buf.maxRead > 0 && n > ToInt(buf.maxRead) {
        n := ToInt(buf.maxRead);
      }
      return Some(ToSize(n));
    }

    /** One output port of the last block. With a multiple that 32 bits hold it is granted the greatest multiple up
        to its room and max_fill, when the buffer answers and has room for min_fill items and for one multiple;
        otherwise it is not ready. */
    method QueryOutput(buf: Buffer, multipleSet: bool, multiple: nat) returns (grant: Option<nat>)
      requires multipleSet ==> ToUInt(multiple) != 0
      ensures grant == WriteGrant(buf, multipleSet, multiple)
      ensures var n, m := buf.Space(), if multipleSet then multiple else 1;
        var room := if n < INT_MAX then n else INT_MAX;
        var limit := if 0 < buf.maxFill < room then buf.maxFill else room;
        0 <= n < TWO_64 && (multipleSet ==> multiple < TWO_32) ==>
          && (grant.Some? <==> buf.writeOk && n >= 1 && n >= buf.minFill && m <= limit)
          && (grant.Some? ==> grant.value > 0 && IsGreatestMultiple(grant.value, limit, m))
    {
      OutputLimits(buf, multipleSet, multiple);
      var maxOutput: nat, ready := INT_MAX, buf.writeOk;
      var space := ToSize(buf.Space());
      if space < 1 || (buf.minFill > 0 && space < buf.minFill) {
        return None;
      }
      if space < maxOutput {
        maxOutput := space;
      }
      if buf.maxFill > 0 && maxOutput > buf.maxFill {
        maxOutput := buf.maxFill;
      }
      if multipleSet {
        maxOutput := RoundDown(maxOutput, multiple);
      }
      if maxOutput <= 0 {
        ready := false;
      }
      if !ready {
        return None;
      }
      return Some(maxOutput);
    }

    /** Grants for input ports, one after the other, until one is not ready. */
    method GrantInputs(ports: seq<InPort>) returns (ins: seq<InPort>, ready: bool)
      requires forall i :: 0 <= i < |ports| ==> ports[i].buf < |bufs|
      ensures ready <==> FirstRefusedIn(ports, bufs) == |ports|
      ensures ins == GrantedIns(ports, bufs, FirstRefusedIn(ports, bufs))
    {
      ghost var k := FirstRefusedIn(ports, bufs);
      ins, ready := ports, true;
      var i := 0;
      while i < |ins|
        invariant i <= k && ready
        invariant ins == GrantedIns(ports, bufs, i)
      {
        var grant := QueryInput(bufs[ins[i].buf]);
        if grant.None? {
          ready := false;
          break;
        }
        ins := ins[i := ins[i].(nItems := grant.value)];
        i := i + 1;
      }
    }

    /** Grants for output ports, in whole output multiples, until one is not ready. */
    method GrantOutputs(b: Block) returns (outs: seq<OutPort>, ready: bool)
      requires forall i :: 0 <= i < |b.outs| ==> b.outs[i].buf < |bufs|
      requires b.multipleSet ==> ToUInt(b.multiple) != 0
      ensures ready <==> FirstRefusedOut(b.outs, bufs, b.multipleSet, b.multiple) == |b.outs|
      ensures outs == GrantedOuts(b, bufs, FirstRefusedOut(b.outs, bufs, b.multipleSet, b.multiple))
    {
      hide WriteGrant;
      ghost var k := FirstRefusedOut(b.outs, bufs, b.multipleSet, b.multiple);
      outs, ready := b.outs, true;
      var i := 0;
      while i < |outs|
        invariant i <= k && ready
        invariant outs == GrantedOuts(b, bufs, i)
      {
        var grant := QueryOutput(bufs[outs[i].buf], b.multipleSet, b.multiple);
        if grant.None? {
          ready := false;
          break;
        }
        outs := outs[i := outs[i].(nItems := grant.value)];
        i := i + 1;
      }
    }

    /** The first block's inputs: ready exactly when every one of them is. Ports up to the first that is not hold
        their grants; nothing else changes. */
    method CheckInputs() returns (ready: bool)
      requires Runnable(blocks, bufs)
      modifies `blocks
      ensures Checked(blocks, ready) == CheckedIns(old(blocks), bufs)
      ensures ready <==> InputsReady(old(blocks), bufs)
      ensures |blocks| == |old(blocks)| && blocks[1..] == old(blocks)[1..] && blocks[0].outs == old(blocks)[0].outs
      ensures var ins := old(blocks)[0].ins;
        var k := FirstRefusedIn(ins, bufs);
        && |blocks[0].ins| == |ins|
        && (forall i :: 0 <= i < k ==> blocks[0].ins[i] == ins[i].(nItems := ReadGrant(bufs[ins[i].buf]).value))
        && (forall i :: k <= i < |ins| ==> blocks[0].ins[i] == ins[i])
    {
      hide ReadGrant; hide InputsReady; hide ToUInt;
      InputsCheckedExactly(blocks, bufs);
      PortsInRange(blocks, bufs, 0);
      var ins;
      ins, ready := GrantInputs(blocks[0].ins);
      blocks := blocks[0 := blocks[0].(ins := ins)];
    }

    /** The last block's outputs: the same. */
    method CheckOutputs() returns (ready: bool)
      requires Runnable(blocks, bufs)
      modifies `blocks
      ensures Checked(blocks, ready) == CheckedOuts(old(blocks), bufs)
      ensures ready <==> OutputsReady(old(blocks), bufs)
      ensures var n := |old(blocks)| - 1;
        |blocks| == n + 1 && blocks[..n] == old(blocks)[..n] && blocks[n].ins == old(blocks)[n].ins
      ensures var b, c := old(blocks)[|old(blocks)| - 1], blocks[|blocks| - 1];
        var k := FirstRefusedOut(b.outs, bufs, b.multipleSet, b.multiple);
        && |c.outs| == |b.outs|
        && (forall i :: 0 <= i < k ==>
              c.outs[i] == b.outs[i].(nItems := WriteGrant(bufs[b.outs[i].buf], b.multipleSet, b.multiple).value))
        && (forall i :: k <= i < |b.outs| ==> c.outs[i] == b.outs[i])
    {
      hide WriteGrant; hide OutputsReady; hide ToUInt;
      OutputsCheckedExactly(blocks, bufs);
      PortsInRange(blocks, bufs, |blocks| - 1);
      var b, outs := blocks[|blocks| - 1], [];
      outs, ready := GrantOutputs(b);
      blocks := blocks[|blocks| - 1 := b.(outs := outs)];
    }

    /** The counts of the first input and of the last output, given to every port of block `j`. */
    method PrepareBlock(j: nat)
      requires j < |blocks| && blocks[0].ins != [] && blocks[|blocks| - 1].outs != []
      modifies `blocks
      ensures |blocks| == |old(blocks)|
      ensures var nin, nout := old(blocks)[0].ins[0].nItems, old(blocks)[|old(blocks)| - 1].outs[0].nItems;
        && blocks == old(blocks)[j := Prepared(old(blocks)[j], nin, nout)]
        && (forall i :: 0 <= i < |blocks[j].ins| ==> blocks[j].ins[i].nItems == nin && blocks[j].ins[i].nConsumed == 0)
        && (forall i :: 0 <= i < |blocks[j].outs| ==>
              blocks[j].outs[i].nItems == nout && blocks[j].outs[i].nProduced == 0)
    {
      var ins, outs := blocks[j].ins, blocks[j].outs;
      var nin, nout := blocks[0].ins[0].nItems, blocks[|blocks| - 1].outs[0].nItems;
      ghost var p := Prepared(blocks[j], nin, nout);
      for i := 0 to |ins|
        invariant blocks == old(blocks) && |ins| == |blocks[j].ins|
        invariant forall x :: 0 <= x < |ins| ==> ins[x] == if x < i then p.ins[x] else blocks[j].ins[x]
      {
        ins := ins[i := ins[i].(nItems := nin, nConsumed := 0)];
      }
      for i := 0 to |outs|
        invariant blocks == old(blocks) && |outs| == |blocks[j].outs|
        invariant forall x :: 0 <= x < |outs| ==> outs[x] == if x < i then p.outs[x] else blocks[j].outs[x]
      {
        outs := outs[i := outs[i].(nItems := nout, nProduced := 0)];
      }
      assert ins == p.ins && outs == p.outs;
      blocks := blocks[j := blocks[j].(ins := ins, outs := outs)];
    }

    /** One do_work of a sync block that returns `ret`. */
    method DoWorkOnce(j: nat, ret: Return, nin: nat, nout: nat)
      requires j < |blocks|
      modifies `blocks, `events
      ensures blocks == old(blocks)[j := Attempted(old(blocks)[j], nin, nout, ret)]
      ensures events == old(events) + [DoWork(j, ret)]
    {
      events := events + [DoWork(j, ret)];
      blocks := blocks[j := Attempted(blocks[j], nin, nout, ret)];
    }

    /** The retry loop of block `j`; None when no attempt of the script ends it. */
    method RunBlock(j: nat, script: seq<Return>, nin: nat, nout: nat) returns (ret: Option<Return>)
      requires j < |blocks|
      modifies `blocks, `events
      ensures |blocks| == |old(blocks)|
      ensures var n := Attempts(script, j == |blocks| - 1);
        && ret == (if n.None? then None else Some(script[n.value - 1]))
        && blocks == (if n.None? then old(blocks)
                      else old(blocks)[j := Attempted(old(blocks)[j], nin, nout, script[n.value - 1])])
        && events == old(events) + Calls(j, script, j == |blocks| - 1)
      ensures ret.Some? <==> || OK in script || Return.DONE in script
                             || (j == |blocks| - 1 && (INSUFFICIENT_INPUT in script || INSUFFICIENT_OUTPUT in script))
    {
      hide Attempts; hide SyncItems;
      AttemptsExactly(script, j == |blocks| - 1);
      var last := j == |blocks| - 1;
      var i := 0;
      while i < |script|
        invariant 0 <= i <= |script| && blocks == old(blocks)
        invariant forall x :: 0 <= x < i ==> !Ends(script[x], last)
        invariant events == old(events) + seq(i, x requires 0 <= x < i && i <= |script| => DoWork(j, script[x]))
      {
        DoWorkOnce(j, script[i], nin, nout);
        if Ends(script[i], last) {
          AttemptsIs(script, last, i + 1);
          return Some(script[i]);
        }
        i := i + 1;
      }
      AttemptsNone(script, last);
      return None;
    }

    /** Counts, retry loop and status of one block. */
    method RunOne(j: nat, script: seq<Return>, before: Status) returns (ret: Option<Return>, status: Status)
      requires j < |blocks| && blocks[0].ins != [] && blocks[|blocks| - 1].outs != []
      modifies `blocks, `events
      ensures |blocks| == |old(blocks)|
      ensures var last, nin := j == |blocks| - 1, old(blocks)[0].ins[0].nItems;
        var nout, n := old(blocks)[|blocks| - 1].outs[0].nItems, Attempts(script, last);
        && ret == (if n.None? then None else Some(script[n.value - 1]))
        && blocks == old(blocks)[j := Ran(old(blocks)[j], nin, nout, script, last)]
        && events == old(events) + Calls(j, script, last)
        && (ret.Some? ==> !ret.value.OtherReturn? && status == StatusOf(blocks[j], ret.value))
    {
      var nin, nout := blocks[0].ins[0].nItems, blocks[|blocks| - 1].outs[0].nItems;
      status := before;
      PrepareBlock(j);
      ret := RunBlock(j, script, nin, nout);
      if ret.Some? {
        status := StatusOf(blocks[j], ret.value);
      }
    }

    /** Every block in turn; `stuck` is the first one whose retry loop does not end, or the number of blocks. */
    method RunBlocks(scripts: seq<seq<Return>>) returns (stuck: nat, status: Status, lastRet: Return)
      requires Runnable(blocks, bufs) && |scripts| == |blocks|
      modifies `blocks, `events
      ensures |blocks| == |old(blocks)|
      ensures var last, nin := |blocks| - 1, old(blocks)[0].ins[0].nItems;
        var nout := old(blocks)[last].outs[0].nItems;
        && stuck == FirstStuck(scripts, 0)
        && blocks == RanBlocks(old(blocks), nin, nout, scripts, if stuck < |blocks| then stuck + 1 else |blocks|)
        && events == old(events) + WorkEvents(scripts, if stuck < |blocks| then stuck + 1 else |blocks|)
      ensures stuck == |blocks| ==>
        var last := |blocks| - 1;
        && lastRet == LastReturn(scripts)
        && !lastRet.OtherReturn? && status == StatusOf(blocks[last], lastRet)
    {
      hide Ran; hide RanBlocks; hide StatusOf; hide Calls; hide Attempts; hide FirstStuck; hide PortsOk;
      hide WorkEvents;
      ghost var bs, e0 := blocks, events;
      ghost var nin, nout := blocks[0].ins[0].nItems, blocks[|blocks| - 1].outs[0].nItems;
      status, lastRet := READY, OK;
      NoneRan(bs, nin, nout, scripts);
      OneMoreCalls(scripts, 0);
      var j := 0;
      while j < |blocks|
        invariant 0 <= j <= |blocks| == |bs|
        invariant blocks == RanBlocks(bs, nin, nout, scripts, j)
        invariant events == e0 + WorkEvents(scripts, j)
        invariant FirstStuck(scripts, j) == FirstStuck(scripts, 0)
        invariant j > 0 ==>
            && Attempts(scripts[j - 1], j == |bs|).Some?
            && lastRet == scripts[j - 1][Attempts(scripts[j - 1], j == |bs|).value - 1]
            && !lastRet.OtherReturn? && status == StatusOf(blocks[j - 1], lastRet)
      {
        KeepsCounts(bs, nin, nout, scripts, j);
        OneMoreRan(bs, nin, nout, scripts, j);
        OneMoreCalls(scripts, j);
        StuckFrom(scripts, j);
        var ret;
        ret, status := RunOne(j, scripts[j], status);
        if ret.None? {
          return j, status, lastRet;
        }
        lastRet := ret.value;
        j := j + 1;
      }
      StuckFrom(scripts, j);
      stuck := |blocks|;
    }

    /** A call to a buffer or a port. */
    method Emit(e: Event)
      modifies `bufs, `events
      ensures events == old(events) + [e] && bufs == ApplyOne(old(bufs), e)
    {
      events := events + [e];
      bufs := ApplyOne(bufs, e);
    }

    /** post_read on the inputs of block `j`. */
    method PostBlockReads(j: nat)
      requires j < |blocks|
      modifies `bufs, `events
      ensures events == old(events) + PortReads(blocks[j].ins)
      ensures bufs == Apply(old(bufs), PortReads(blocks[j].ins))
    {
      hide Apply;
      ghost var es := PortReads(blocks[j].ins);
      ApplyNothing(bufs);
      for i := 0 to |blocks[j].ins|
        invariant blocks == old(blocks)
        invariant events == old(events) + es[..i] && bufs == Apply(old(bufs), es[..i])
      {
        ApplyMore(old(bufs), es[..i], es[i]);
        assert es[..i + 1] == es[..i] + [es[i]];
        Emit(PostRead(blocks[j].ins[i].buf, blocks[j].ins[i].nConsumed));
      }
      assert es[..|es|] == es;
    }

    /** post_read on every input of every block. */
    method PostReads()
      modifies `bufs, `events
      ensures events == old(events) + ReadPosts(blocks) && bufs == Apply(old(bufs), ReadPosts(blocks))
    {
      hide Apply; hide PortReads; hide PortWrites;
      assert ReadPosts(blocks[..0]) == [] && Apply(bufs, []) == bufs by { ApplyNothing(bufs); }
      for j := 0 to |blocks|
        invariant blocks == old(blocks)
        invariant events == old(events) + ReadPosts(blocks[..j]) && bufs == Apply(old(bufs), ReadPosts(blocks[..j]))
      {
        assert blocks[..j + 1][..j] == blocks[..j];
        ApplyConcat(old(bufs), ReadPosts(blocks[..j]), PortReads(blocks[j].ins));
        PostBlockReads(j);
      }
      assert blocks[..|blocks|] == blocks;
    }

    /** post_write on the outputs of block `j`. */
    method PostBlockWrites(j: nat, np: nat)
      requires j < |blocks|
      modifies `bufs, `events
      ensures events == old(events) + PortWrites(blocks[j].outs, np)
      ensures bufs == Apply(old(bufs), PortWrites(blocks[j].outs, np))
    {
      ghost var es := PortWrites(blocks[j].outs, np);
      for i := 0 to |blocks[j].outs|
        invariant blocks == old(blocks)
        invariant events == old(events) + es[..i] && bufs == Apply(old(bufs), es[..i])
      {
        ApplyMore(old(bufs), es[..i], es[i]);
        assert es[..i + 1] == es[..i] + [es[i]];
        Emit(PostWrite(blocks[j].outs[i].buf, np));
      }
      assert es[..|es|] == es;
    }

    /** post_write on every output of every block, by the same count. */
    method PostWrites(np: nat)
      modifies `bufs, `events
      ensures events == old(events) + WritePosts(blocks, np) && bufs == Apply(old(bufs), WritePosts(blocks, np))
    {
      hide Apply; hide PortReads; hide PortWrites;
      assert WritePosts(blocks[..0], np) == [] && Apply(bufs, []) == bufs by { ApplyNothing(bufs); }
      for j := 0 to |blocks|
        invariant blocks == old(blocks)
        invariant events == old(events) + WritePosts(blocks[..j], np)
        invariant bufs == Apply(old(bufs), WritePosts(blocks[..j], np))
      {
        assert blocks[..j + 1][..j] == blocks[..j];
        ApplyConcat(old(bufs), WritePosts(blocks[..j], np), PortWrites(blocks[j].outs, np));
        PostBlockWrites(j, np);
      }
      assert blocks[..|blocks|] == blocks;
    }

    /** NOTIFY_OUTPUT through every input port of the first block. */
    method TellAllUpstream()
      requires blocks != []
      modifies `bufs, `events
      ensures events == old(events) + UpstreamNotes(|blocks[0].ins|) && bufs == old(bufs)
    {
      for i := 0 to |blocks[0].ins|
        invariant blocks == old(blocks) && bufs == old(bufs)
        invariant events == old(events) + UpstreamNotes(i)
      {
        Emit(TellUpstream(i));
      }
    }

    /** NOTIFY_INPUT through every output port of the last block. */
    method TellAllDownstream()
      requires blocks != []
      modifies `bufs, `events
      ensures events == old(events) + DownstreamNotes(|blocks[|blocks| - 1].outs|) && bufs == old(bufs)
    {
      for i := 0 to |blocks[|blocks| - 1].outs|
        invariant blocks == old(blocks) && bufs == old(bufs)
        invariant events == old(events) + DownstreamNotes(i)
      {
        Emit(TellDownstream(i));
      }
    }

    /** input_blocked_callback on the inputs of block `j`. */
    method UnclogInputsOfBlock(j: nat)
      requires j < |blocks|
      requires forall i :: 0 <= i < |blocks[j].ins| ==> blocks[j].ins[i].buf < |bufs|
      modifies `bufs, `events
      ensures events == old(events) + UnclogPorts(blocks[j].ins, bufs, j == 0) && bufs == old(bufs)
    {
      hide UnclogPorts;
      UnclogNothing(bufs, j == 0);
      for i := 0 to |blocks[j].ins|
        invariant blocks == old(blocks) && bufs == old(bufs)
        invariant events == old(events) + UnclogPorts(blocks[j].ins[..i], bufs, j == 0)
      {
        var w := blocks[j].ins[i];
        MoreUncloggedIn(blocks[j].ins, i, bufs, j == 0);
        Emit(InputBlocked(w.buf));
        if bufs[w.buf].unclogsInput && j == 0 {
          Emit(TellUpstream(i));
        }
      }
      assert blocks[j].ins[..|blocks[j].ins|] == blocks[j].ins;
    }

    method UnclogInputs()
      requires PortsOk(blocks, bufs)
      modifies `bufs, `events
      ensures events == old(events) + UnclogIns(blocks, bufs) && bufs == old(bufs)
    {
      for j := 0 to |blocks|
        invariant blocks == old(blocks) && bufs == old(bufs)
        invariant events == old(events) + UnclogIns(blocks[..j], bufs)
      {
        assert blocks[..j + 1][..j] == blocks[..j];
        UnclogInputsOfBlock(j);
      }
      assert blocks[..|blocks|] == blocks;
    }

    /** output_blocked_callback on the outputs of block `j`. */
    method UnclogOutputsOfBlock(j: nat)
      requires j < |blocks|
      requires forall i :: 0 <= i < |blocks[j].outs| ==> blocks[j].outs[i].buf < |bufs|
      modifies `bufs, `events
      ensures events == old(events) + UnclogOutPorts(blocks[j].outs, bufs, j == |blocks| - 1) && bufs == old(bufs)
    {
      hide UnclogOutPorts;
      UnclogNothing(bufs, j == |blocks| - 1);
      for i := 0 to |blocks[j].outs|
        invariant blocks == old(blocks) && bufs == old(bufs)
        invariant events == old(events) + UnclogOutPorts(blocks[j].outs[..i], bufs, j == |blocks| - 1)
      {
        var w := blocks[j].outs[i];
        MoreUnclogged(blocks[j].outs, i, bufs, j == |blocks| - 1);
        Emit(OutputBlocked(w.buf));
        if bufs[w.buf].unclogsOutput && j == |blocks| - 1 {
          Emit(TellDownstream(i));
        }
      }
      assert blocks[j].outs[..|blocks[j].outs|] == blocks[j].outs;
    }

    method UnclogOutputs()
      requires PortsOk(blocks, bufs)
      modifies `bufs, `events
      ensures events == old(events) + UnclogOuts(blocks, bufs, |blocks| - 1) && bufs == old(bufs)
    {
      for j := 0 to |blocks|
        invariant blocks == old(blocks) && bufs == old(bufs)
        invariant events == old(events) + UnclogOuts(blocks[..j], bufs, |blocks| - 1)
      {
        assert blocks[..j + 1][..j] == blocks[..j];
        UnclogOutputsOfBlock(j);
      }
      assert blocks[..|blocks|] == blocks;
    }

    /** What follows the last block: posts, notifications, callbacks. */
    method Publish(ret: Return)
      requires Runnable(blocks, bufs)
      modifies `bufs, `events
      ensures var last := |blocks| - 1;
        var np := blocks[last].outs[0].nProduced;
        && bufs == Apply(Apply(old(bufs), ReadPosts(blocks)), WritePosts(blocks, np))
        && |bufs| == |old(bufs)|
        && events == old(events) + ReadPosts(blocks) + UpstreamNotes(|blocks[0].ins|) + WritePosts(blocks, np)
                     + DownstreamNotes(|blocks[last].outs|) + Unclogging(blocks, old(bufs), ret)
    {
      hide Apply; hide ReadPosts; hide WritePosts; hide UpstreamNotes; hide DownstreamNotes;
      ghost var before := bufs;
      PostReads();
      TellAllUpstream();
      ApplyKeepsAnswers(before, ReadPosts(blocks));
      ghost var between := bufs;
      PostWrites(blocks[|blocks| - 1].outs[0].nProduced);
      TellAllDownstream();
      ApplyKeepsAnswers(between, WritePosts(blocks, blocks[|blocks| - 1].outs[0].nProduced));
      UnclogAlike(blocks, bufs, before, |blocks| - 1);
      if ret.INSUFFICIENT_INPUT? {
        UnclogInputs();
      } else if ret.INSUFFICIENT_OUTPUT? {
        UnclogOutputs();
      }
    }

    /** The iteration behind two successful checks. */
    method RunReady(scripts: seq<seq<Return>>) returns (outcome: Outcome)
      requires Runnable(blocks, bufs) && |scripts| == |blocks|
      modifies this
      ensures var r := Work(old(blocks), old(bufs), scripts);
        && blocks == r.blocks && outcome == r.outcome
        && events == old(events) + r.events && bufs == Apply(old(bufs), r.events)
    {
      hide Apply; hide ReadPosts; hide WritePosts; hide UpstreamNotes; hide DownstreamNotes; hide WorkEvents;
      hide Unclogging; hide StatusOf; hide FirstStuck; hide RanBlocks; hide PortsOk; hide Attempts; hide ToUInt;
      ghost var bs, before := blocks, bufs;
      var stuck, status, ret := RunBlocks(scripts);
      WorkPostsNothing(scripts, if stuck < |blocks| then stuck + 1 else |blocks|);
      if stuck < |blocks| {
        NothingApplied(bufs, WorkEvents(scripts, stuck + 1));
        return Stuck(stuck);
      }
      RanKeepsPorts(bs, bufs, scripts);
      StagesOf(bufs, blocks, scripts, ret);
      Publish(ret);
      return Returned(status);
    }

    /** run_one_iteration, with `scripts` for what the blocks' do_work returns, attempt by attempt. */
    method RunOneIteration(scripts: seq<seq<Return>>) returns (outcome: Outcome)
      requires Runnable(blocks, bufs) && |scripts| == |blocks|
      modifies this
      ensures var r := Iterate(old(blocks), old(bufs), scripts);
        && blocks == r.blocks && outcome == r.outcome
        && events == old(events) + r.events && bufs == Apply(old(bufs), r.events)
      ensures !InputsReady(old(blocks), old(bufs)) ==>
        outcome == Returned(BLKD_IN) && events == old(events) && bufs == old(bufs)
      ensures InputsReady(old(blocks), old(bufs)) && !OutputsReady(old(blocks), old(bufs)) ==>
        outcome == Returned(BLKD_OUT) && bufs == old(bufs)
    {
      hide Apply; hide Iterate; hide InputsReady; hide OutputsReady; hide Runnable;
      if !(InputsReady(blocks, bufs) && OutputsReady(blocks, bufs)) {
        RefusedDoesNothing(blocks, bufs, scripts);
      }
      outcome := CheckAndRun(scripts);
    }

    method CheckAndRun(scripts: seq<seq<Return>>) returns (outcome: Outcome)
      requires Runnable(blocks, bufs) && |scripts| == |blocks|
      modifies this
      ensures var r := Iterate(old(blocks), old(bufs), scripts);
        && blocks == r.blocks && outcome == r.outcome
        && events == old(events) + r.events && bufs == Apply(old(bufs), r.events)
    {
      hide Apply; hide Work; hide CheckedIns; hide CheckedOuts; hide UnclogOuts; hide InputsReady; hide OutputsReady;
      hide PortsOk; hide ToUInt;
      var ready := CheckInputs();
      if !ready {
        ApplyNothing(bufs);
        return Returned(BLKD_IN);
      }
      ready := CheckOutputs();
      if !ready {
        UnclogPostsNothing(blocks, bufs, |blocks| - 1);
        NothingApplied(bufs, UnclogOuts(blocks, bufs, |blocks| - 1));
        UnclogOutputs();
        return Returned(BLKD_OUT);
      }
      outcome := RunReady(scripts);
    }
  }
}
