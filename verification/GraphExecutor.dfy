/** One iteration of the fused executor over a list of blocks, as functions on values. */
module GraphExecutor {
  import opened Messages
  import opened Returns
  import opened Widths
  import opened Options

  /** A buffer with its one reader: what has been published and consumed since the start, the limits set on it,
      and how it answers the executor's queries. */
  datatype Buffer = Buffer(
    capacity: nat, written: nat, read: nat,
    minRead: nat, maxRead: nat, minFill: nat, maxFill: nat,
    readOk: bool, writeOk: bool, unclogsInput: bool, unclogsOutput: bool)
  {
    /** n_items of read_info and of write_info. */
    function Available(): int { written - read }
    function Space(): int { capacity - (written - read) }
  }

  datatype InPort = InPort(buf: nat, nItems: nat, nConsumed: nat)
  datatype OutPort = OutPort(buf: nat, nItems: nat, nProduced: nat)

  datatype Block = Block(ins: seq<InPort>, outs: seq<OutPort>, multipleSet: bool, multiple: nat)

  datatype Event =
    | DoWork(block: nat, ret: Return)
    | PostRead(buf: nat, n: nat)
    | PostWrite(buf: nat, n: nat)
    | TellUpstream(port: nat)    // NOTIFY_OUTPUT through an input port
    | TellDownstream(port: nat)  // NOTIFY_INPUT through an output port
    | InputBlocked(buf: nat)
    | OutputBlocked(buf: nat)

  /** The iteration returned, or it retries a block's do_work for ever. */
  datatype Outcome = Returned(status: Status) | Stuck(block: nat)

  // ---- The checks ----

  /** n_items granted to an input port of the first block, unless it is not ready. */
  function ReadGrant(b: Buffer): (g: Option<nat>)
  {
    var n := b.Available();
    if !b.readOk || n < 1 || (b.minRead > 0 && n < ToInt(b.minRead)) then None
    else if b.maxRead > 0 && n > ToInt(b.maxRead) then Some(ToSize(ToInt(b.maxRead)))
    else Some(ToSize(n))
  }

  /** Free space, cut to max_fill and to what an int holds. */
  function FillLimit(b: Buffer): nat {
    var space := ToSize(b.Space());
    var cut := if space < INT_MAX then space else INT_MAX;
    if b.maxFill > 0 && cut > b.maxFill then b.maxFill else cut
  }

  /** n_items granted to an output port of the last block, unless it is not ready. */
  function WriteGrant(b: Buffer, multipleSet: bool, multiple: nat): (g: Option<nat>)
    requires multipleSet ==> ToUInt(multiple) != 0
  {
    var space := ToSize(b.Space());
    if space < 1 || (b.minFill > 0 && space < b.minFill) then None
    else
      var n := if multipleSet then RoundDown(FillLimit(b), multiple) else FillLimit(b);
      if n <= 0 || !b.writeOk then None else Some(n)
  }

  /** The first input port that is not ready, or the number of ports. */
  function FirstRefusedIn(ins: seq<InPort>, bufs: seq<Buffer>): (k: nat)
    requires forall i :: 0 <= i < |ins| ==> ins[i].buf < |bufs|
    ensures k <= |ins| && (forall i :: 0 <= i < k ==> ReadGrant(bufs[ins[i].buf]).Some?)
    ensures k < |ins| ==> ReadGrant(bufs[ins[k].buf]).None?
    decreases |ins|
  {
    if ins == [] || ReadGrant(bufs[ins[0].buf]).None? then 0 else 1 + FirstRefusedIn(ins[1..], bufs)
  }

  function FirstRefusedOut(outs: seq<OutPort>, bufs: seq<Buffer>, multipleSet: bool, multiple: nat): (k: nat)
    requires forall i :: 0 <= i < |outs| ==> outs[i].buf < |bufs|
    requires multipleSet ==> ToUInt(multiple) != 0
    ensures k <= |outs| && (forall i :: 0 <= i < k ==> WriteGrant(bufs[outs[i].buf], multipleSet, multiple).Some?)
    ensures k < |outs| ==> WriteGrant(bufs[outs[k].buf], multipleSet, multiple).None?
    decreases |outs|
  {
    if outs == [] || WriteGrant(bufs[outs[0].buf], multipleSet, multiple).None? then 0
    else 1 + FirstRefusedOut(outs[1..], bufs, multipleSet, multiple)
  }

  /** The first `k` ports hold their grants. */
  function GrantedIns(ins: seq<InPort>, bufs: seq<Buffer>, k: nat): (r: seq<InPort>)
    requires forall i :: 0 <= i < |ins| ==> ins[i].buf < |bufs|
    requires k <= |ins| && forall i :: 0 <= i < k ==> ReadGrant(bufs[ins[i].buf]).Some?
    ensures |r| == |ins| && forall i :: 0 <= i < |r| ==> r[i].buf == ins[i].buf
  {
    seq(|ins|, i requires 0 <= i < |ins| =>
      if i < k then ins[i].(nItems := ReadGrant(bufs[ins[i].buf]).value) else ins[i])
  }

  function GrantedOuts(b: Block, bufs: seq<Buffer>, k: nat): (r: seq<OutPort>)
    requires b.multipleSet ==> ToUInt(b.multiple) != 0
    requires forall i :: 0 <= i < |b.outs| ==> b.outs[i].buf < |bufs|
    requires k <= |b.outs|
    requires forall i :: 0 <= i < k ==> WriteGrant(bufs[b.outs[i].buf], b.multipleSet, b.multiple).Some?
    ensures |r| == |b.outs| && forall i :: 0 <= i < |r| ==> r[i].buf == b.outs[i].buf
  {
    seq(|b.outs|, i requires 0 <= i < |b.outs| =>
      if i < k then b.outs[i].(nItems := WriteGrant(bufs[b.outs[i].buf], b.multipleSet, b.multiple).value)
      else b.outs[i])
  }

  // ---- The blocks ----

  /** Every port given the same counts, nothing moved yet. */
  function Prepared(b: Block, nin: nat, nout: nat): Block {
    b.(ins := seq(|b.ins|, i requires 0 <= i < |b.ins| => b.ins[i].(nItems := nin, nConsumed := 0)),
       outs := seq(|b.outs|, i requires 0 <= i < |b.outs| => b.outs[i].(nItems := nout, nProduced := 0)))
  }

  /** The contract of a sync block: it processes as many items as every port allows, in whole multiples. */
  function SyncItems(b: Block, nin: nat, nout: nat): nat {
    var n := if b.ins == [] then nout else if b.outs == [] || nin < nout then nin else nout;
    if b.multipleSet && b.multiple > 0 then Floor(n, b.multiple) else n
  }

  /** What an attempt that returns `ret` leaves in the ports. */
  function Attempted(b: Block, nin: nat, nout: nat, ret: Return): Block {
    if !Finishes(ret) then b
    else
      var q := SyncItems(b, nin, nout);
      b.(ins := seq(|b.ins|, i requires 0 <= i < |b.ins| => b.ins[i].(nConsumed := q)),
         outs := seq(|b.outs|, i requires 0 <= i < |b.outs| => b.outs[i].(nProduced := q)))
  }

  /** A return value that ends the retry loop of a block. */
  predicate Ends(ret: Return, last: bool) {
    Finishes(ret) || (last && Insufficient(ret))
  }

  /** How many attempts a block makes, `script` being what its do_work returns time after time; None when no
      attempt ends its retry loop. */
  function Attempts(script: seq<Return>, last: bool): (n: Option<nat>)
    ensures n.Some? ==> 0 < n.value <= |script| && Ends(script[n.value - 1], last)
    ensures n.Some? ==> forall i :: 0 <= i < n.value - 1 ==> !Ends(script[i], last)
    ensures n.None? ==> forall i :: 0 <= i < |script| ==> !Ends(script[i], last)
  {
    if script == [] then None
    else if Ends(script[0], last) then Some(1)
    else
      match Attempts(script[1..], last)
      case None => None
      case Some(n) => Some(n + 1)
  }

  lemma {:induction false} AttemptsIs(script: seq<Return>, last: bool, n: nat)
    requires 0 < n <= |script| && Ends(script[n - 1], last)
    requires forall i :: 0 <= i < n - 1 ==> !Ends(script[i], last)
    ensures Attempts(script, last) == Some(n)
  {
    if n > 1 {
      AttemptsIs(script[1..], last, n - 1);
    }
  }

  lemma {:induction false} AttemptsNone(script: seq<Return>, last: bool)
    requires forall i :: 0 <= i < |script| ==> !Ends(script[i], last)
    ensures Attempts(script, last) == None
  {
    if script != [] {
      AttemptsNone(script[1..], last);
    }
  }

  /** The block behind its retry loop. */
  function Ran(b: Block, nin: nat, nout: nat, script: seq<Return>, last: bool): Block {
    match Attempts(script, last)
    case None => Prepared(b, nin, nout)
    case Some(n) => Attempted(Prepared(b, nin, nout), nin, nout, script[n - 1])
  }

  /** The status behind a block whose retry loop ended with `ret`. */
  function StatusOf(b: Block, ret: Return): Status
    requires !ret.OtherReturn?
  {
    match ret
    case DONE => Status.DONE
    case OK => if b.ins == [] && b.outs != [] && (forall i :: 0 <= i < |b.outs| ==> b.outs[i].nProduced == 0)
               then BLKD_IN else READY
    case INSUFFICIENT_INPUT => BLKD_IN
    case INSUFFICIENT_OUTPUT => BLKD_OUT
  }

  // ---- What an iteration does to the outside ----

  /** The do_work calls of one block. */
  function Calls(j: nat, script: seq<Return>, last: bool): seq<Event> {
    var n := match Attempts(script, last) case None => |script| case Some(k) => k;
    seq(n, i requires 0 <= i < n && n <= |script| => DoWork(j, script[i]))
  }

  /** The do_work calls of the first `n` blocks. */
  function WorkEvents(scripts: seq<seq<Return>>, n: nat): seq<Event>
    requires n <= |scripts|
  {
    if n == 0 then [] else WorkEvents(scripts, n - 1) + Calls(n - 1, scripts[n - 1], n == |scripts|)
  }

  lemma OneMoreCalls(scripts: seq<seq<Return>>, n: nat)
    requires n < |scripts|
    ensures WorkEvents(scripts, 0) == []
    ensures WorkEvents(scripts, n + 1) == WorkEvents(scripts, n) + Calls(n, scripts[n], n == |scripts| - 1)
  {
  }

  function PortReads(ins: seq<InPort>): seq<Event> {
    seq(|ins|, i requires 0 <= i < |ins| => PostRead(ins[i].buf, ins[i].nConsumed))
  }

  function PortWrites(outs: seq<OutPort>, np: nat): seq<Event> {
    seq(|outs|, i requires 0 <= i < |outs| => PostWrite(outs[i].buf, np))
  }

  /** post_read on every input of every block, by what that block consumed. */
  function ReadPosts(bs: seq<Block>): seq<Event> {
    if bs == [] then [] else ReadPosts(bs[..|bs| - 1]) + PortReads(bs[|bs| - 1].ins)
  }

  /** post_write on every output of every block, by the same count. */
  function WritePosts(bs: seq<Block>, np: nat): seq<Event> {
    if bs == [] then [] else WritePosts(bs[..|bs| - 1], np) + PortWrites(bs[|bs| - 1].outs, np)
  }

  function UpstreamNotes(n: nat): seq<Event> { seq(n, i requires 0 <= i < n => TellUpstream(i)) }

  function DownstreamNotes(n: nat): seq<Event> { seq(n, i requires 0 <= i < n => TellDownstream(i)) }

  /** input_blocked_callback on every input, with a notification where the first block's buffer could help. */
  function UnclogIns(bs: seq<Block>, bufs: seq<Buffer>): seq<Event> {
    if bs == [] then []
    else UnclogIns(bs[..|bs| - 1], bufs) + UnclogPorts(bs[|bs| - 1].ins, bufs, |bs| == 1)
  }

  function UnclogPorts(ins: seq<InPort>, bufs: seq<Buffer>, first: bool): seq<Event> {
    if ins == [] then []
    else
      var n := |ins| - 1;
      UnclogPorts(ins[..n], bufs, first) + [InputBlocked(ins[n].buf)]
      + if first && ins[n].buf < |bufs| && bufs[ins[n].buf].unclogsInput then [TellUpstream(n)] else []
  }

  /** output_blocked_callback on every output, with a notification where the last block's buffer could help. */
  function UnclogOuts(bs: seq<Block>, bufs: seq<Buffer>, last: int): seq<Event> {
    if bs == [] then []
    else UnclogOuts(bs[..|bs| - 1], bufs, last) + UnclogOutPorts(bs[|bs| - 1].outs, bufs, |bs| - 1 == last)
  }

  function UnclogOutPorts(outs: seq<OutPort>, bufs: seq<Buffer>, last: bool): seq<Event> {
    if outs == [] then []
    else
      var n := |outs| - 1;
      UnclogOutPorts(outs[..n], bufs, last) + [OutputBlocked(outs[n].buf)]
      + if last && outs[n].buf < |bufs| && bufs[outs[n].buf].unclogsOutput then [TellDownstream(n)] else []
  }

  lemma UnclogNothing(bufs: seq<Buffer>, end: bool)
    ensures UnclogOutPorts([], bufs, end) == [] && UnclogPorts([], bufs, end) == []
  {
  }

  /** One more input port. */
  lemma MoreUncloggedIn(ins: seq<InPort>, i: nat, bufs: seq<Buffer>, first: bool)
    requires i < |ins|
    ensures UnclogPorts(ins[..i + 1], bufs, first)
         == UnclogPorts(ins[..i], bufs, first) + [InputBlocked(ins[i].buf)]
            + if first && ins[i].buf < |bufs| && bufs[ins[i].buf].unclogsInput then [TellUpstream(i)] else []
  {
    assert ins[..i + 1][..i] == ins[..i];
  }

  /** One more output port. */
  lemma MoreUnclogged(outs: seq<OutPort>, i: nat, bufs: seq<Buffer>, last: bool)
    requires i < |outs|
    ensures UnclogOutPorts(outs[..i + 1], bufs, last)
         == UnclogOutPorts(outs[..i], bufs, last) + [OutputBlocked(outs[i].buf)]
            + if last && outs[i].buf < |bufs| && bufs[outs[i].buf].unclogsOutput then [TellDownstream(i)] else []
  {
    assert outs[..i + 1][..i] == outs[..i];
  }

  function ApplyOne(bufs: seq<Buffer>, e: Event): (r: seq<Buffer>)
    ensures |r| == |bufs|
  {
    match e
    case PostRead(x, n) => if x < |bufs| then bufs[x := bufs[x].(read := bufs[x].read + n)] else bufs
    case PostWrite(x, n) => if x < |bufs| then bufs[x := bufs[x].(written := bufs[x].written + n)] else bufs
    case _ => bufs
  }

  /** The buffers behind a sequence of events. */
  function Apply(bufs: seq<Buffer>, events: seq<Event>): (r: seq<Buffer>)
    ensures |r| == |bufs|
  {
    if events == [] then bufs else ApplyOne(Apply(bufs, events[..|events| - 1]), events[|events| - 1])
  }

  lemma ApplyNothing(bufs: seq<Buffer>)
    ensures Apply(bufs, []) == bufs
  {
  }

  lemma ApplyMore(bufs: seq<Buffer>, events: seq<Event>, e: Event)
    ensures Apply(bufs, events + [e]) == ApplyOne(Apply(bufs, events), e)
  {
    assert (events + [e])[..|events + [e]| - 1] == events;
  }

  lemma {:induction false} ApplyConcat(bufs: seq<Buffer>, a: seq<Event>, b: seq<Event>)
    ensures Apply(bufs, a + b) == Apply(Apply(bufs, a), b)
  {
    if b == [] {
      assert a + b == a;
    } else {
      assert (a + b)[..|a + b| - 1] == a + b[..|b| - 1];
      ApplyConcat(bufs, a, b[..|b| - 1]);
    }
  }

  /** Events that leave every buffer alone. */
  ghost predicate NoPost(events: seq<Event>) {
    forall i :: 0 <= i < |events| ==> !events[i].PostRead? && !events[i].PostWrite?
  }

  lemma {:induction false} NothingApplied(bufs: seq<Buffer>, events: seq<Event>)
    requires NoPost(events)
    ensures Apply(bufs, events) == bufs
  {
    if events != [] {
      NothingApplied(bufs, events[..|events| - 1]);
    }
  }

  lemma {:induction false} UnclogPortsPostNothing(ins: seq<InPort>, bufs: seq<Buffer>, first: bool)
    ensures NoPost(UnclogPorts(ins, bufs, first))
  {
    if ins != [] {
      UnclogPortsPostNothing(ins[..|ins| - 1], bufs, first);
    }
  }

  lemma {:induction false} UnclogOutPortsPostNothing(outs: seq<OutPort>, bufs: seq<Buffer>, last: bool)
    ensures NoPost(UnclogOutPorts(outs, bufs, last))
  {
    if outs != [] {
      UnclogOutPortsPostNothing(outs[..|outs| - 1], bufs, last);
    }
  }

  lemma {:induction false} UnclogPostsNothing(bs: seq<Block>, bufs: seq<Buffer>, last: int)
    ensures NoPost(UnclogIns(bs, bufs)) && NoPost(UnclogOuts(bs, bufs, last))
  {
    if bs != [] {
      UnclogPostsNothing(bs[..|bs| - 1], bufs, last);
      UnclogPortsPostNothing(bs[|bs| - 1].ins, bufs, |bs| == 1);
      UnclogOutPortsPostNothing(bs[|bs| - 1].outs, bufs, |bs| - 1 == last);
    }
  }

  lemma {:induction false} WorkPostsNothing(scripts: seq<seq<Return>>, n: nat)
    requires n <= |scripts|
    ensures NoPost(WorkEvents(scripts, n))
    ensures forall i :: 0 <= i < |WorkEvents(scripts, n)| ==> WorkEvents(scripts, n)[i].DoWork?
  {
    if n > 0 {
      WorkPostsNothing(scripts, n - 1);
    }
  }

  /** Of the stages of an iteration only the two posts change buffers. */
  lemma StagesApplied(bufs: seq<Buffer>, work: seq<Event>, taken: seq<Event>, up: seq<Event>,
                      given: seq<Event>, down: seq<Event>, unclog: seq<Event>)
    requires NoPost(work) && NoPost(up) && NoPost(down) && NoPost(unclog)
    ensures Apply(bufs, work + taken + up + given + down + unclog) == Apply(Apply(bufs, taken), given)
  {
    ApplyConcat(bufs, work + taken + up + given + down, unclog);
    ApplyConcat(bufs, work + taken + up + given, down);
    ApplyConcat(bufs, work + taken + up, given);
    ApplyConcat(bufs, work + taken, up);
    ApplyConcat(bufs, work, taken);
    NothingApplied(bufs, work);
    var r := Apply(bufs, taken);
    NothingApplied(r, up);
    NothingApplied(Apply(r, given), down);
    NothingApplied(Apply(r, given), unclog);
  }

  /** The buffers answer the blocked callbacks alike. */
  ghost predicate SameAnswers(a: seq<Buffer>, b: seq<Buffer>) {
    |a| == |b| && forall x :: 0 <= x < |a| ==>
      a[x].unclogsInput == b[x].unclogsInput && a[x].unclogsOutput == b[x].unclogsOutput
  }

  lemma {:induction false} ApplyKeepsAnswers(bufs: seq<Buffer>, events: seq<Event>)
    ensures SameAnswers(Apply(bufs, events), bufs)
  {
    if events != [] {
      ApplyKeepsAnswers(bufs, events[..|events| - 1]);
    }
  }

  lemma {:induction false} UnclogPortsAlike(ins: seq<InPort>, outs: seq<OutPort>, a: seq<Buffer>, b: seq<Buffer>,
                                            end: bool)
    requires SameAnswers(a, b)
    ensures UnclogPorts(ins, a, end) == UnclogPorts(ins, b, end)
    ensures UnclogOutPorts(outs, a, end) == UnclogOutPorts(outs, b, end)
    decreases |ins| + |outs|
  {
    if ins != [] {
      UnclogPortsAlike(ins[..|ins| - 1], outs, a, b, end);
    }
    if outs != [] {
      UnclogPortsAlike(ins, outs[..|outs| - 1], a, b, end);
    }
  }

  lemma {:induction false} UnclogAlike(bs: seq<Block>, a: seq<Buffer>, b: seq<Buffer>, last: int)
    requires SameAnswers(a, b)
    ensures UnclogIns(bs, a) == UnclogIns(bs, b) && UnclogOuts(bs, a, last) == UnclogOuts(bs, b, last)
  {
    if bs != [] {
      UnclogAlike(bs[..|bs| - 1], a, b, last);
      UnclogPortsAlike(bs[|bs| - 1].ins, [], a, b, |bs| == 1);
      UnclogPortsAlike([], bs[|bs| - 1].outs, a, b, |bs| - 1 == last);
    }
  }

  // ---- The iteration ----

  datatype Result = Result(blocks: seq<Block>, events: seq<Event>, outcome: Outcome)

  predicate PortsOk(bs: seq<Block>, bufs: seq<Buffer>) {
    forall j :: 0 <= j < |bs| ==>
      && (forall i :: 0 <= i < |bs[j].ins| ==> bs[j].ins[i].buf < |bufs|)
      && (forall i :: 0 <= i < |bs[j].outs| ==> bs[j].outs[i].buf < |bufs|)
  }

  /** What the executor takes for granted: blocks, an input of the first and an output of the last, a buffer
      behind every port, and an output multiple that it can divide by. */
  predicate Runnable(bs: seq<Block>, bufs: seq<Buffer>) {
    && bs != [] && bs[0].ins != [] && bs[|bs| - 1].outs != []
    && PortsOk(bs, bufs)
    && (bs[|bs| - 1].multipleSet ==> ToUInt(bs[|bs| - 1].multiple) != 0)
  }

  /** The first block whose retry loop never ends, or the number of blocks. */
  function FirstStuck(scripts: seq<seq<Return>>, from: nat): (k: nat)
    requires from <= |scripts|
    ensures from <= k <= |scripts|
    ensures forall i :: from <= i < k ==> Attempts(scripts[i], i == |scripts| - 1).Some?
    ensures k < |scripts| ==> Attempts(scripts[k], k == |scripts| - 1).None?
    decreases |scripts| - from
  {
    if from == |scripts| || Attempts(scripts[from], from == |scripts| - 1).None? then from
    else FirstStuck(scripts, from + 1)
  }

  lemma StuckFrom(scripts: seq<seq<Return>>, from: nat)
    requires from <= |scripts|
    ensures FirstStuck(scripts, from) ==
      if from == |scripts| || Attempts(scripts[from], from == |scripts| - 1).None? then from
      else FirstStuck(scripts, from + 1)
  {
  }

  /** The blocks up to `n` behind their retry loops, the others untouched. */
  function RanBlocks(bs: seq<Block>, nin: nat, nout: nat, scripts: seq<seq<Return>>, n: nat): (r: seq<Block>)
    requires |scripts| == |bs| && n <= |bs|
    ensures |r| == |bs|
  {
    seq(|bs|, i requires 0 <= i < |bs| =>
      if i < n then Ran(bs[i], nin, nout, scripts[i], i == |bs| - 1) else bs[i])
  }

  lemma NoneRan(bs: seq<Block>, nin: nat, nout: nat, scripts: seq<seq<Return>>)
    requires |scripts| == |bs|
    ensures RanBlocks(bs, nin, nout, scripts, 0) == bs
  {
  }

  lemma OneMoreRan(bs: seq<Block>, nin: nat, nout: nat, scripts: seq<seq<Return>>, n: nat)
    requires |scripts| == |bs| && n < |bs|
    ensures RanBlocks(bs, nin, nout, scripts, n)[n] == bs[n]
    ensures RanBlocks(bs, nin, nout, scripts, n + 1)
         == RanBlocks(bs, nin, nout, scripts, n)[n := Ran(bs[n], nin, nout, scripts[n], n == |bs| - 1)]
  {
  }

  /** What the last block's retry loop ended with. */
  function LastReturn(scripts: seq<seq<Return>>): Return
    requires scripts != [] && Attempts(scripts[|scripts| - 1], true).Some?
  {
    scripts[|scripts| - 1][Attempts(scripts[|scripts| - 1], true).value - 1]
  }

  /** Running blocks does not change the counts that the next ones are given. */
  lemma KeepsCounts(bs: seq<Block>, nin: nat, nout: nat, scripts: seq<seq<Return>>, n: nat)
    requires |scripts| == |bs| && n <= |bs| && bs != []
    requires bs[0].ins != [] && bs[0].ins[0].nItems == nin
    requires bs[|bs| - 1].outs != [] && bs[|bs| - 1].outs[0].nItems == nout
    ensures var r := RanBlocks(bs, nin, nout, scripts, n);
      && r[0].ins != [] && r[0].ins[0].nItems == nin
      && r[|bs| - 1].outs != [] && r[|bs| - 1].outs[0].nItems == nout
  {
  }

  /** A check: the port counts it sets, and whether every port is ready. */
  datatype Checked = Checked(blocks: seq<Block>, ok: bool)

  function CheckedIns(bs: seq<Block>, bufs: seq<Buffer>): (r: Checked)
    requires Runnable(bs, bufs)
    ensures |r.blocks| == |bs| && Runnable(r.blocks, bufs)
  {
    var k := FirstRefusedIn(bs[0].ins, bufs);
    Checked(bs[0 := bs[0].(ins := GrantedIns(bs[0].ins, bufs, k))], k == |bs[0].ins|)
  }

  function CheckedOuts(bs: seq<Block>, bufs: seq<Buffer>): (r: Checked)
    requires Runnable(bs, bufs)
    ensures |r.blocks| == |bs| && Runnable(r.blocks, bufs)
  {
    var last := |bs| - 1;
    var k := FirstRefusedOut(bs[last].outs, bufs, bs[last].multipleSet, bs[last].multiple);
    Checked(bs[last := bs[last].(outs := GrantedOuts(bs[last], bufs, k))], k == |bs[last].outs|)
  }

  /** The callbacks behind an iteration whose last block had too little room or too few items. */
  function Unclogging(bs: seq<Block>, bufs: seq<Buffer>, ret: Return): seq<Event> {
    if ret.INSUFFICIENT_INPUT? then UnclogIns(bs, bufs)
    else if ret.INSUFFICIENT_OUTPUT? then UnclogOuts(bs, bufs, |bs| - 1) else []
  }

  /** Everything behind two successful checks. */
  function Work(bs: seq<Block>, bufs: seq<Buffer>, scripts: seq<seq<Return>>): Result
    requires Runnable(bs, bufs) && |scripts| == |bs|
  {
    var last := |bs| - 1;
    var stuck := FirstStuck(scripts, 0);
    var nin, nout := bs[0].ins[0].nItems, bs[last].outs[0].nItems;
    if stuck < |bs| then
      Result(RanBlocks(bs, nin, nout, scripts, stuck + 1), WorkEvents(scripts, stuck + 1), Stuck(stuck))
    else
      var ran := RanBlocks(bs, nin, nout, scripts, |bs|);
      var ret := LastReturn(scripts);
      var np := ran[last].outs[0].nProduced;
      Result(ran,
             WorkEvents(scripts, |bs|) + ReadPosts(ran) + UpstreamNotes(|ran[0].ins|)
             + WritePosts(ran, np) + DownstreamNotes(|ran[last].outs|)
             + Unclogging(ran, bufs, ret),
             Returned(StatusOf(ran[last], ret)))
  }

  /** run_one_iteration: `scripts` holds what each block's do_work returns, attempt by attempt. */
  function Iterate(bs: seq<Block>, bufs: seq<Buffer>, scripts: seq<seq<Return>>): Result
    requires Runnable(bs, bufs) && |scripts| == |bs|
  {
    var ins := CheckedIns(bs, bufs);
    if !ins.ok then Result(ins.blocks, [], Returned(BLKD_IN))
    else
      var outs := CheckedOuts(ins.blocks, bufs);
      if !outs.ok then Result(outs.blocks, UnclogOuts(outs.blocks, bufs, |bs| - 1), Returned(BLKD_OUT))
      else Work(outs.blocks, bufs, scripts)
  }

  lemma RanKeepsPorts(bs: seq<Block>, bufs: seq<Buffer>, scripts: seq<seq<Return>>)
    requires Runnable(bs, bufs) && |scripts| == |bs|
    ensures Runnable(RanBlocks(bs, bs[0].ins[0].nItems, bs[|bs| - 1].outs[0].nItems, scripts, |bs|), bufs)
  {
  }

  /** The buffers behind all stages of an iteration. */
  lemma StagesOf(bufs: seq<Buffer>, ran: seq<Block>, scripts: seq<seq<Return>>, ret: Return)
    requires Runnable(ran, bufs) && |scripts| == |ran|
    ensures var last := |ran| - 1;
      var np := ran[last].outs[0].nProduced;
      Apply(bufs, WorkEvents(scripts, |ran|) + ReadPosts(ran) + UpstreamNotes(|ran[0].ins|) + WritePosts(ran, np)
                  + DownstreamNotes(|ran[last].outs|) + Unclogging(ran, bufs, ret))
      == Apply(Apply(bufs, ReadPosts(ran)), WritePosts(ran, np))
  {
    var last := |ran| - 1;
    var np := ran[last].outs[0].nProduced;
    WorkPostsNothing(scripts, |ran|);
    UnclogPostsNothing(ran, bufs, last);
    StagesApplied(bufs, WorkEvents(scripts, |ran|), ReadPosts(ran), UpstreamNotes(|ran[0].ins|), WritePosts(ran, np),
                  DownstreamNotes(|ran[last].outs|), Unclogging(ran, bufs, ret));
  }
}
