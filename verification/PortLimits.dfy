/** The counts of the first input and the first output are given to every port: when that is more than a port
    has. */
module PortLimits {
  import opened Returns
  import opened Widths
  import opened Options
  import opened GraphExecutor
  import opened ExecutorTheorems
  import opened Conservation
  import opened ConservedRuns
  import opened Streaming

  /** The items granted by the first input and the first output port. */
  lemma GrantsOf(bs: seq<Block>, bufs: seq<Buffer>)
    requires Runnable(bs, bufs) && Ready(bs, bufs)
    ensures var g, last := Granted(bs, bufs), |bs| - 1;
      var i, o := ReadGrant(bufs[bs[0].ins[0].buf]),
                  WriteGrant(bufs[bs[last].outs[0].buf], bs[last].multipleSet, bs[last].multiple);
      && i.Some? && g[0].ins[0].nItems == i.value
      && o.Some? && g[last].outs[0].nItems == o.value
  {
    hide ReadGrant; hide WriteGrant;
  }

  /** What the guards of an iteration let every block of a group process. */
  function Granting(bs: seq<Block>, bufs: seq<Buffer>): nat
    requires Runnable(bs, bufs) && Ready(bs, bufs)
  {
    GrantsOf(bs, bufs);
    var last := bs[|bs| - 1];
    var i := ReadGrant(bufs[bs[0].ins[0].buf]).value;
    var o := WriteGrant(bufs[last.outs[0].buf], last.multipleSet, last.multiple).value;
    var n := if i < o then i else o;
    if bs[0].multipleSet && bs[0].multiple > 0 then Floor(n, bs[0].multiple) else n
  }

  lemma QuotaIsGranting(bs: seq<Block>, bufs: seq<Buffer>)
    requires Runnable(bs, bufs) && Ready(bs, bufs) && Fused(bs)
    ensures Quota(bs, bufs) == Granting(bs, bufs)
  {
    hide Granted; hide Ready; hide ReadGrant; hide WriteGrant; hide Floor; hide PortsOk;
    GrantsOf(bs, bufs);
    GrantedKeeps(bs, bufs);
  }

  // ---- Exactly when a port is overrun or overfilled ----

  /** Items that an iteration takes from the inputs of its first block, and those that it gives to the outputs of
      its last one. */
  function Taking(bs: seq<Block>, bufs: seq<Buffer>, scripts: seq<seq<Return>>): nat
    requires Runnable(bs, bufs) && Ready(bs, bufs) && |scripts| == |bs| && FirstStuck(scripts, 0) == |bs|
  {
    if |bs| > 1 || Finishes(LastReturn(scripts)) then Granting(bs, bufs) else 0
  }

  function Giving(bs: seq<Block>, bufs: seq<Buffer>, scripts: seq<seq<Return>>): nat
    requires Runnable(bs, bufs) && Ready(bs, bufs) && |scripts| == |bs| && FirstStuck(scripts, 0) == |bs|
  {
    if Finishes(LastReturn(scripts)) then Granting(bs, bufs) else 0
  }

  lemma {:induction false} EndsOfIteration(bs: seq<Block>, bufs: seq<Buffer>, scripts: seq<seq<Return>>, x: nat)
    requires Runnable(bs, bufs) && Fused(bs) && |scripts| == |bs| && x < |bufs|
    requires Ready(bs, bufs) && Iterate(bs, bufs, scripts).outcome.Returned?
    ensures FirstStuck(scripts, 0) == |bs|
    ensures var after := Behind(bs, bufs, scripts)[x];
      && (Readers(bs, x) == 0 ==> after.read == bufs[x].read)
      && (Writers(bs, x) == 0 ==> after.written == bufs[x].written)
      && (Source(bs, x) ==> after.read == bufs[x].read + Taking(bs, bufs, scripts))
      && (Sink(bs, x) ==> after.written == bufs[x].written + Giving(bs, bufs, scripts))
      && after.capacity == bufs[x].capacity
  {
    hide Behind; hide Quota; hide Granting; hide Ready; hide Iterate; hide FirstStuck; hide LastReturn; hide Fused;
    hide PortsOk; hide PortsIn; hide PortsOut;
    IterationMoves(bs, bufs, scripts, x);
    QuotaIsGranting(bs, bufs);
    FewerReaders(bs, x);
    BehindKeepsCapacity(bs, bufs, scripts, x);
    if Source(bs, x) {
      SourceReaders(bs, x);
    }
  }

  lemma BehindKeepsCapacity(bs: seq<Block>, bufs: seq<Buffer>, scripts: seq<seq<Return>>, x: nat)
    requires Runnable(bs, bufs) && |scripts| == |bs| && x < |bufs|
    ensures Behind(bs, bufs, scripts)[x].capacity == bufs[x].capacity
  {
    hide Iterate; hide Runnable;
    ApplyKeepsCapacity(bufs, Iterate(bs, bufs, scripts).events, x);
  }

  lemma {:induction false} ApplyKeepsCapacity(bufs: seq<Buffer>, events: seq<Event>, x: nat)
    requires x < |bufs|
    ensures Apply(bufs, events)[x].capacity == bufs[x].capacity
  {
    if events != [] {
      ApplyKeepsCapacity(bufs, events[..|events| - 1], x);
    }
  }

  /** An iteration of any fused group, whatever it returns, reads no input of its first block past its end exactly
      when that input holds what the first input and the first output let through, or the only block takes
      nothing. */
  lemma OverrunExactly(bs: seq<Block>, bufs: seq<Buffer>, scripts: seq<seq<Return>>, x: nat)
    requires Runnable(bs, bufs) && Fused(bs) && |scripts| == |bs| && x < |bufs|
    requires Ready(bs, bufs) && Iterate(bs, bufs, scripts).outcome.Returned?
    requires Source(bs, x) && Writers(bs, x) == 0
    ensures FirstStuck(scripts, 0) == |bs|
    ensures Behind(bs, bufs, scripts)[x].Available() >= 0 <==>
      bufs[x].Available() >= if |bs| > 1 || Finishes(LastReturn(scripts)) then Granting(bs, bufs) else 0
  {
    hide Behind; hide Granting; hide Ready; hide Iterate; hide FirstStuck; hide LastReturn; hide Fused; hide Source;
    EndsOfIteration(bs, bufs, scripts, x);
  }

  /** It overfills no output of its last block exactly when that output has room for what the first input and the
      first output let through, or the last block gives nothing. */
  lemma OverfillExactly(bs: seq<Block>, bufs: seq<Buffer>, scripts: seq<seq<Return>>, y: nat)
    requires Runnable(bs, bufs) && Fused(bs) && |scripts| == |bs| && y < |bufs|
    requires Ready(bs, bufs) && Iterate(bs, bufs, scripts).outcome.Returned?
    requires Sink(bs, y) && Readers(bs, y) == 0
    ensures FirstStuck(scripts, 0) == |bs|
    ensures Behind(bs, bufs, scripts)[y].Space() >= 0 <==>
      bufs[y].Space() >= if Finishes(LastReturn(scripts)) then Granting(bs, bufs) else 0
  {
    hide Behind; hide Granting; hide Ready; hide Iterate; hide FirstStuck; hide LastReturn; hide Fused; hide Sink;
    EndsOfIteration(bs, bufs, scripts, y);
  }

  // ---- What suffices ----

  lemma GrantingWithin(bs: seq<Block>, bufs: seq<Buffer>)
    requires Runnable(bs, bufs) && Ready(bs, bufs)
    ensures var b := bufs[bs[0].ins[0].buf];
      0 <= b.Available() <= INT_MAX && b.maxRead <= INT_MAX ==> Granting(bs, bufs) <= b.Available()
    ensures var last := bs[|bs| - 1];
      var b := bufs[last.outs[0].buf];
      0 <= b.Space() < TWO_64 && (last.multipleSet ==> last.multiple < TWO_32) ==>
        Granting(bs, bufs) <= b.Space()
    ensures Granting(bs, bufs) <= INT_MAX
  {
    hide Ready; hide ReadGrant; hide WriteGrant;
    GrantsOf(bs, bufs);
    var b, last := bufs[bs[0].ins[0].buf], bs[|bs| - 1];
    if 0 <= b.Available() <= INT_MAX && b.maxRead <= INT_MAX {
      InputGrantExact(b);
    }
    WriteGrantWithin(bufs[last.outs[0].buf], last.multipleSet, last.multiple);
  }

  lemma WriteGrantWithin(b: Buffer, multipleSet: bool, multiple: nat)
    requires multipleSet ==> ToUInt(multiple) != 0
    requires WriteGrant(b, multipleSet, multiple).Some?
    ensures var n := WriteGrant(b, multipleSet, multiple).value;
      && n <= INT_MAX
      && (0 <= b.Space() < TWO_64 && (multipleSet ==> multiple < TWO_32) ==> n <= b.Space())
  {
    hide RoundDown;
    assert FillLimit(b) <= INT_MAX;
    if multipleSet {
      RoundDownBelow(FillLimit(b), multiple);
    }
    if 0 <= b.Space() < TWO_64 && (multipleSet ==> multiple < TWO_32) {
      OutputGrantIsOptimal(b, multipleSet, multiple);
    }
  }

  lemma RoundDownBelow(n: nat, m: nat)
    requires n <= INT_MAX && ToUInt(m) != 0
    ensures RoundDown(n, m) <= n
  {
    DivisionIs(n, TWO_32, 0, n);
    FloorIsMultiple(n, ToUInt(m));
  }

  /** The first input holds the fewest items, and its max_read fits an int. */
  ghost predicate FewestFirst(r: Round)
    requires r.Valid()
  {
    var b0 := r.bufs[r.blocks[0].ins[0].buf];
    && 0 <= b0.Available() <= INT_MAX && b0.maxRead <= INT_MAX
    && forall p :: 0 <= p < |r.blocks[0].ins| ==> b0.Available() <= r.bufs[r.blocks[0].ins[p].buf].Available()
  }

  /** Then every input of the first block has the items that the round takes. */
  lemma FewestFirstCovers(r: Round)
    requires r.Valid() && r.Ended() && Fused(r.blocks) && FewestFirst(r)
    ensures forall p :: 0 <= p < |r.blocks[0].ins| ==> r.bufs[r.blocks[0].ins[p].buf].Available() >= r.Takes()
    ensures Covered(r)
  {
    hide FirstStuck; hide LastReturn; hide Granting; hide Fused;
    if Ready(r.blocks, r.bufs) {
      QuotaIsGranting(r.blocks, r.bufs);
      GrantingWithin(r.blocks, r.bufs);
    }
  }

  /** The first output of the last block has the least room, and the output multiple fits 32 bits. */
  ghost predicate LeastRoomFirst(r: Round)
    requires r.Valid()
  {
    var last := r.blocks[|r.blocks| - 1];
    var b0 := r.bufs[last.outs[0].buf];
    && 0 <= b0.Space() < TWO_64 && (last.multipleSet ==> last.multiple < TWO_32)
    && forall p :: 0 <= p < |last.outs| ==> b0.Space() <= r.bufs[last.outs[p].buf].Space()
  }

  /** Then every output of the last block has room for what the round gives. */
  lemma LeastRoomFirstFits(r: Round)
    requires r.Valid() && r.Ended() && Fused(r.blocks) && LeastRoomFirst(r)
    ensures var last := r.blocks[|r.blocks| - 1];
      forall p :: 0 <= p < |last.outs| ==> r.bufs[last.outs[p].buf].Space() >= r.Gives()
  {
    hide FirstStuck; hide LastReturn; hide Granting; hide Fused;
    if Ready(r.blocks, r.bufs) {
      QuotaIsGranting(r.blocks, r.bufs);
      GrantingWithin(r.blocks, r.bufs);
    }
  }

  /** Chunking independence as the executor's guards give it: with the fewest items on the first input in every
      round, a run publishes the model function, batch by batch, on what it consumes. */
  lemma FewestFirstStreams<T>(f: seq<seq<T>> -> seq<T>, rounds: seq<Round>, streams: seq<seq<T>>)
    requires IsRun(rounds) && Alone(rounds[0].blocks)
    requires forall i :: 0 <= i < |rounds| ==> FewestFirst(rounds[i]) && Fed(rounds[i], streams)
    ensures AllServed(rounds, streams, rounds[0].blocks[0].multiple)
    ensures var m, starts := rounds[0].blocks[0].multiple, rounds[0].Starts();
      var k := BatchesIn(Given(rounds), m);
      && k * m == Given(rounds)
      && Holds(streams, starts, m, k)
      && Published(f, m, rounds, streams) == Outputs(f, m, streams, starts, k)
  {
    hide Follows; hide Covered; hide Fed; hide FewestFirst; hide Iterate; hide Ready; hide Readers; hide Given;
    hide Published; hide Outputs; hide Holds; hide BatchesIn; hide AllServed;
    forall i | 0 <= i < |rounds|
      ensures Covered(rounds[i])
    {
      RoundIsAlone(rounds, i);
      AloneIsFused(rounds[i].blocks);
      FewestFirstCovers(rounds[i]);
    }
    CoveredAreServed(rounds, streams);
    ChunkingIndependence(f, rounds, streams);
  }

  // ---- A second input that holds less ----

  const PLENTY: Buffer := Buffer(8, 4, 0, 0, 0, 0, 0, true, true, false, false)
  const SCARCE: Buffer := Buffer(8, 1, 0, 0, 0, 0, 0, true, true, false, false)
  const EMPTY: Buffer := Buffer(8, 0, 0, 0, 0, 0, 0, true, true, false, false)
  const UNEVEN: seq<Buffer> := [PLENTY, SCARCE, EMPTY]
  const ADDER: Block := Block([InPort(0, 0, 0), InPort(1, 0, 0)], [OutPort(2, 0, 0)], true, 4)

  lemma UnevenReads()
    ensures ReadGrant(PLENTY) == Some(4) && ReadGrant(SCARCE) == Some(1)
  {
  }

  lemma UnevenWrites()
    ensures ToUInt(4) == 4 && WriteGrant(EMPTY, true, 4) == Some(8)
  {
    assert FillLimit(EMPTY) == 8;
  }

  lemma UnevenGrants()
    ensures ReadGrant(PLENTY) == Some(4) && ReadGrant(SCARCE) == Some(1) && WriteGrant(EMPTY, true, 4) == Some(8)
    ensures ToUInt(4) == 4
  {
    hide ReadGrant; hide WriteGrant; hide ToUInt;
    UnevenReads();
    UnevenWrites();
  }

  lemma FourInFours()
    ensures Floor(4, 4) == 4
  {
  }

  lemma UnevenChecked()
    ensures Runnable([ADDER], UNEVEN)
    ensures FirstRefusedIn(ADDER.ins, UNEVEN) == 2 && FirstRefusedOut(ADDER.outs, UNEVEN, true, 4) == 1
  {
    hide ReadGrant; hide WriteGrant; hide ToUInt; hide FirstRefusedIn; hide FirstRefusedOut;
    UnevenGrants();
    var k := FirstRefusedIn(ADDER.ins, UNEVEN);
    assert k < 2 ==> k == 0 || k == 1;
  }

  lemma UnevenReady()
    ensures Runnable([ADDER], UNEVEN) && Ready([ADDER], UNEVEN)
  {
    hide ReadGrant; hide WriteGrant; hide ToUInt; hide FirstRefusedIn; hide FirstRefusedOut; hide GrantedIns;
    hide GrantedOuts;
    UnevenGrants();
    UnevenChecked();
    assert CheckedIns([ADDER], UNEVEN).ok;
    assert CheckedIns([ADDER], UNEVEN).blocks[0].outs == ADDER.outs;
  }

  /** Two inputs with four items and one: both are ready, four are processed, and the second input has been read
      three items past its end. */
  lemma SecondInputCanBeOverrun()
    ensures Runnable([ADDER], UNEVEN) && Ready([ADDER], UNEVEN)
    ensures Iterate([ADDER], UNEVEN, [[Return.OK]]).outcome.Returned?
    ensures Behind([ADDER], UNEVEN, [[Return.OK]])[1].Available() == -3
  {
    hide ReadGrant; hide WriteGrant; hide Ready; hide Iterate; hide Behind; hide Floor; hide ToUInt; hide Runnable;
    hide Granted;
    var scripts := [[Return.OK]];
    UnevenReady();
    UnevenGrants();
    FourInFours();
    OneOk();
    OutcomeOf([ADDER], UNEVEN, scripts);
    assert ADDER.ins[..1] == [InPort(0, 0, 0)];
    OnlyBlock(ADDER, 1);
    EndsOfIteration([ADDER], UNEVEN, scripts, 1);
  }

  lemma OneOk()
    ensures FirstStuck([[Return.OK]], 0) == 1 && LastReturn([[Return.OK]]) == Return.OK
  {
    assert Attempts([Return.OK], true) == Some(1);
  }

  lemma OnlyBlock(b: Block, x: nat)
    ensures Readers([b], x) == PortsIn(b.ins, x) && Writers([b], x) == PortsOut(b.outs, x)
  {
    assert [b][..0] == [];
  }

  // ---- A second output with less room ----

  const ROOMY: Buffer := Buffer(8, 0, 0, 0, 0, 0, 0, true, true, false, false)
  const TIGHT: Buffer := Buffer(1, 0, 0, 0, 0, 0, 0, true, true, false, false)
  const SKEWED: seq<Buffer> := [PLENTY, ROOMY, TIGHT]
  const SPLITTER: Block := Block([InPort(0, 0, 0)], [OutPort(1, 0, 0), OutPort(2, 0, 0)], false, 0)

  lemma RoomyGrant()
    ensures WriteGrant(ROOMY, false, 0) == Some(8)
  {
    assert FillLimit(ROOMY) == 8;
  }

  lemma TightGrant()
    ensures WriteGrant(TIGHT, false, 0) == Some(1)
  {
    assert FillLimit(TIGHT) == 1;
  }

  lemma SkewedGrants()
    ensures ReadGrant(PLENTY) == Some(4)
    ensures WriteGrant(ROOMY, false, 0) == Some(8) && WriteGrant(TIGHT, false, 0) == Some(1)
  {
    hide ReadGrant; hide WriteGrant;
    UnevenReads();
    RoomyGrant();
    TightGrant();
  }

  lemma SkewedChecked()
    ensures Runnable([SPLITTER], SKEWED)
    ensures FirstRefusedIn(SPLITTER.ins, SKEWED) == 1 && FirstRefusedOut(SPLITTER.outs, SKEWED, false, 0) == 2
  {
    hide ReadGrant; hide WriteGrant; hide FirstRefusedIn; hide FirstRefusedOut;
    SkewedGrants();
    var k := FirstRefusedOut(SPLITTER.outs, SKEWED, false, 0);
    assert k < 2 ==> k == 0 || k == 1;
  }

  lemma SkewedReady()
    ensures Runnable([SPLITTER], SKEWED) && Ready([SPLITTER], SKEWED)
  {
    hide ReadGrant; hide WriteGrant; hide FirstRefusedIn; hide FirstRefusedOut; hide GrantedIns; hide GrantedOuts;
    SkewedChecked();
    assert CheckedIns([SPLITTER], SKEWED).ok;
    assert CheckedIns([SPLITTER], SKEWED).blocks[0].outs == SPLITTER.outs;
  }

  /** Two outputs with room for eight items and for one: both are ready, four are produced, and the second output
      holds three more than it has room for. */
  lemma SecondOutputCanBeOverfilled()
    ensures Runnable([SPLITTER], SKEWED) && Ready([SPLITTER], SKEWED)
    ensures Iterate([SPLITTER], SKEWED, [[Return.OK]]).outcome.Returned?
    ensures Behind([SPLITTER], SKEWED, [[Return.OK]])[2].Space() == -3
  {
    hide ReadGrant; hide WriteGrant; hide Ready; hide Iterate; hide Behind; hide Runnable; hide Granted;
    var scripts := [[Return.OK]];
    SkewedReady();
    SkewedGrants();
    OneOk();
    OutcomeOf([SPLITTER], SKEWED, scripts);
    assert SPLITTER.outs[..1] == [OutPort(1, 0, 0)];
    OnlyBlock(SPLITTER, 2);
    EndsOfIteration([SPLITTER], SKEWED, scripts, 2);
  }
}
