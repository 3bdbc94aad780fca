/** Conservation over whole runs of a fused group, its neighbours at work between the iterations. */
module ConservedRuns {
  import Returns
  import opened GraphExecutor
  import opened ExecutorTheorems
  import opened Conservation

  /** One iteration: the blocks and buffers as it finds them, and what do_work returns. */
  datatype Round = Round(blocks: seq<Block>, bufs: seq<Buffer>, scripts: seq<seq<Returns.Return>>)
  {
    predicate Valid() { Runnable(blocks, bufs) && |scripts| == |blocks| }

    /** Where the input ports of the first block stand. */
    function Starts(): (r: seq<nat>)
      requires Valid()
      ensures |r| == |blocks[0].ins|
      ensures forall p :: 0 <= p < |r| ==> blocks[0].ins[p].buf < |bufs| && r[p] == bufs[blocks[0].ins[p].buf].read
    {
      assert forall i :: 0 <= i < |blocks[0].ins| ==> blocks[0].ins[i].buf < |bufs|;
      seq(|blocks[0].ins|, p requires 0 <= p < |blocks[0].ins| => bufs[blocks[0].ins[p].buf].read)
    }

    /** It was refused or it returned. */
    predicate Ended()
      requires Valid()
      ensures Ended() && Ready(blocks, bufs) ==> FirstStuck(scripts, 0) == |blocks|
    {
      ReturnedOrRefused(blocks, bufs, scripts);
      Ready(blocks, bufs) ==> Iterate(blocks, bufs, scripts).outcome.Returned?
    }

    /** The items taken by the blocks before the last one. */
    function Takes(): nat
      requires Valid() && Ended()
    {
      if Ready(blocks, bufs) then Quota(blocks, bufs) else 0
    }

    /** The items taken and given by the last block. */
    function Gives(): nat
      requires Valid() && Ended()
    {
      if Ready(blocks, bufs) && Returns.Finishes(LastReturn(scripts)) then Quota(blocks, bufs) else 0
    }

    /** Refused, or a single block, or nothing could be processed, or the last block finished. */
    predicate Smooth()
      requires Valid() && Ended()
    {
      !Ready(blocks, bufs) || |blocks| == 1 || Quota(blocks, bufs) == 0 || Returns.Finishes(LastReturn(scripts))
    }
  }

  lemma ReturnedOrRefused(bs: seq<Block>, bufs: seq<Buffer>, scripts: seq<seq<Returns.Return>>)
    requires Runnable(bs, bufs) && |scripts| == |bs|
    ensures Ready(bs, bufs) ==> (Iterate(bs, bufs, scripts).outcome.Returned? <==> FirstStuck(scripts, 0) == |bs|)
  {
    if Ready(bs, bufs) {
      OutcomeOf(bs, bufs, scripts);
    }
  }

  /** What the neighbours may do to the buffers: anything but consume where the group does, or publish where the
      group does. */
  ghost predicate Neighbours(bs: seq<Block>, a: seq<Buffer>, b: seq<Buffer>) {
    |a| == |b| && forall x :: 0 <= x < |a| ==>
      && (Readers(bs, x) > 0 ==> b[x].read == a[x].read)
      && (Writers(bs, x) > 0 ==> b[x].written == a[x].written)
  }

  /** `later` starts from what `r` and then the neighbours left. */
  ghost predicate Follows(r: Round, later: Round)
    requires r.Valid()
  {
    && later.blocks == Iterate(r.blocks, r.bufs, r.scripts).blocks
    && Neighbours(r.blocks, Behind(r.blocks, r.bufs, r.scripts), later.bufs)
  }

  ghost predicate IsRun(rounds: seq<Round>) {
    && rounds != []
    && (forall i :: 0 <= i < |rounds| ==> rounds[i].Valid() && rounds[i].Ended())
    && (forall i :: 0 < i < |rounds| ==> Follows(rounds[i - 1], rounds[i]))
  }

  function Taken(rounds: seq<Round>): nat
    requires forall i :: 0 <= i < |rounds| ==> rounds[i].Valid() && rounds[i].Ended()
  {
    if rounds == [] then 0 else Taken(rounds[..|rounds| - 1]) + rounds[|rounds| - 1].Takes()
  }

  function Given(rounds: seq<Round>): nat
    requires forall i :: 0 <= i < |rounds| ==> rounds[i].Valid() && rounds[i].Ended()
  {
    if rounds == [] then 0 else Given(rounds[..|rounds| - 1]) + rounds[|rounds| - 1].Gives()
  }

  /** The buffers behind a run. */
  function End(rounds: seq<Round>): seq<Buffer>
    requires rounds != [] && rounds[|rounds| - 1].Valid()
  {
    var r := rounds[|rounds| - 1];
    Behind(r.blocks, r.bufs, r.scripts)
  }

  /** Buffer `x` has been consumed by `t` items for every reader before the last block and `g` items for the
      readers in the last block, and published by `g` items for every writer. */
  ghost predicate Progress(bs: seq<Block>, x: nat, a: Buffer, b: Buffer, t: nat, g: nat)
    requires bs != []
  {
    var front := bs[..|bs| - 1];
    && (Readers(bs, x) > 0 ==>
          b.read == a.read + t * Readers(front, x) + g * (Readers(bs, x) - Readers(front, x)))
    && (Writers(bs, x) > 0 ==> b.written == a.written + g * Writers(bs, x))
  }

  lemma RoundMoves(r: Round, x: nat)
    requires r.Valid() && r.Ended() && Fused(r.blocks) && x < |r.bufs|
    ensures Progress(r.blocks, x, r.bufs[x], Behind(r.blocks, r.bufs, r.scripts)[x], r.Takes(), r.Gives())
  {
    hide Iterate; hide Apply; hide Ready; hide Quota; hide Fused; hide PortsOk; hide FirstStuck; hide Returns.Finishes;
    hide LastReturn; hide Readers; hide Writers;
    var bs := r.blocks;
    if Ready(bs, r.bufs) {
      IterationMoves(bs, r.bufs, r.scripts, x);
      Distribute(r.Takes(), Readers(bs[..|bs| - 1], x), Readers(bs, x) - Readers(bs[..|bs| - 1], x));
    } else {
      NotReadyDoesNothing(bs, r.bufs, r.scripts);
    }
  }

  lemma ProgressAdds(bs: seq<Block>, x: nat, a: Buffer, b: Buffer, c: Buffer, d: Buffer,
                     t: nat, g: nat, t': nat, g': nat)
    requires bs != []
    requires Progress(bs, x, a, b, t, g) && Progress(bs, x, c, d, t', g')
    requires Readers(bs, x) > 0 ==> b.read == c.read
    requires Writers(bs, x) > 0 ==> b.written == c.written
    ensures Progress(bs, x, a, d, t + t', g + g')
  {
    hide Readers; hide Writers;
    var front := bs[..|bs| - 1];
    Distribute(Readers(front, x), t, t');
    Distribute(Readers(bs, x) - Readers(front, x), g, g');
    Distribute(Writers(bs, x), g, g');
  }

  lemma ProgressOfSameWiring(a: seq<Block>, b: seq<Block>, x: nat, before: Buffer, after: Buffer, t: nat, g: nat)
    requires a != [] && SameWiring(a, b)
    ensures Progress(a, x, before, after, t, g) <==> Progress(b, x, before, after, t, g)
  {
    SameCounts(a, b, x);
    assert SameWiring(a[..|a| - 1], b[..|b| - 1]);
    SameCounts(a[..|a| - 1], b[..|b| - 1], x);
  }

  /** The wiring does not change over a run. */
  lemma {:induction false} RunKeepsWiring(rounds: seq<Round>)
    requires IsRun(rounds)
    ensures var a, z := rounds[0], rounds[|rounds| - 1];
      SameWiring(z.blocks, a.blocks) && |z.bufs| == |a.bufs|
  {
    hide Iterate; hide SameWiring;
    if |rounds| == 1 {
      SameWiringSelf(rounds[0].blocks);
    } else {
      var front := rounds[..|rounds| - 1];
      assert IsRun(front) by { FrontIsRun(rounds); }
      RunKeepsWiring(front);
      var r := rounds[|rounds| - 2];
      assert front[|front| - 1] == r;
      IterationKeepsWiring(r.blocks, r.bufs, r.scripts);
      SameWiringChain(rounds[|rounds| - 1].blocks, r.blocks, rounds[0].blocks);
    }
  }

  lemma SameWiringSelf(bs: seq<Block>)
    ensures SameWiring(bs, bs)
  {
  }

  lemma FrontIsRun(rounds: seq<Round>)
    requires IsRun(rounds) && |rounds| > 1
    ensures IsRun(rounds[..|rounds| - 1]) && rounds[..|rounds| - 1][0] == rounds[0]
    ensures Follows(rounds[|rounds| - 2], rounds[|rounds| - 1])
  {
    hide Follows; hide Iterate;
    var front := rounds[..|rounds| - 1];
    forall i | 0 < i < |front|
      ensures Follows(front[i - 1], front[i])
    {
      assert Follows(rounds[i - 1], rounds[i]);
    }
  }

  lemma FusedWiring(a: seq<Block>, b: seq<Block>)
    requires SameWiring(a, b) && Fused(b)
    ensures Fused(a)
  {
  }

  /** One more round behind a run. */
  lemma OneMoreRound(rounds: seq<Round>, x: nat)
    requires IsRun(rounds) && |rounds| > 1 && Fused(rounds[0].blocks) && x < |rounds[0].bufs|
    ensures var r, z := rounds[|rounds| - 2], rounds[|rounds| - 1];
      && |End(rounds)| == |z.bufs| == |Behind(r.blocks, r.bufs, r.scripts)| == |rounds[0].bufs|
      && Progress(rounds[0].blocks, x, z.bufs[x], End(rounds)[x], z.Takes(), z.Gives())
      && var b := Behind(r.blocks, r.bufs, r.scripts)[x];
        && (Readers(rounds[0].blocks, x) > 0 ==> z.bufs[x].read == b.read)
        && (Writers(rounds[0].blocks, x) > 0 ==> z.bufs[x].written == b.written)
  {
    hide Iterate; hide SameWiring; hide Fused; hide Progress; hide Behind; hide PortsOk; hide Readers; hide Writers;
    var bs, r, z := rounds[0].blocks, rounds[|rounds| - 2], rounds[|rounds| - 1];
    RunKeepsWiring(rounds);
    FusedWiring(z.blocks, bs);
    RoundMoves(z, x);
    ProgressOfSameWiring(z.blocks, bs, x, z.bufs[x], End(rounds)[x], z.Takes(), z.Gives());
    FrontIsRun(rounds);
    RunKeepsWiring(rounds[..|rounds| - 1]);
    assert rounds[..|rounds| - 1][|rounds| - 2] == r;
    SameCounts(r.blocks, bs, x);
  }

  /** The totals of a run and of the run without its last round. */
  lemma LastTotals(rounds: seq<Round>)
    requires IsRun(rounds)
    ensures var front, z := rounds[..|rounds| - 1], rounds[|rounds| - 1];
      && Taken(rounds) == Taken(front) + z.Takes() && Given(rounds) == Given(front) + z.Gives()
      && (|rounds| == 1 ==> Taken(front) == 0 && Given(front) == 0)
  {
    hide Follows; hide Iterate; hide Ready; hide Quota; hide FirstStuck; hide PortsOk;
  }

  /** What any run of a fused group does to every buffer, whatever its blocks return. */
  lemma {:induction false} RunMoves(rounds: seq<Round>, x: nat)
    requires IsRun(rounds) && Fused(rounds[0].blocks) && x < |rounds[0].bufs|
    ensures |End(rounds)| == |rounds[0].bufs| && rounds[0].blocks != []
    ensures Progress(rounds[0].blocks, x, rounds[0].bufs[x], End(rounds)[x], Taken(rounds), Given(rounds))
  {
    hide Progress; hide Behind; hide Readers; hide Writers; hide Fused; hide Taken; hide Given; hide Follows;
    hide Ready; hide Quota; hide FirstStuck; hide PortsOk; hide Iterate;
    LastTotals(rounds);
    if |rounds| == 1 {
      RoundMoves(rounds[0], x);
    } else {
      var front, z := rounds[..|rounds| - 1], rounds[|rounds| - 1];
      FrontIsRun(rounds);
      RunMoves(front, x);
      OneMoreRound(rounds, x);
      assert front[|front| - 1] == rounds[|rounds| - 2];
      ProgressAdds(rounds[0].blocks, x, rounds[0].bufs[x], End(front)[x], z.bufs[x], End(rounds)[x],
                   Taken(front), Given(front), z.Takes(), z.Gives());
    }
  }

  /** Taken and given differ exactly when some round is not smooth. */
  lemma {:induction false} TakenIsGiven(rounds: seq<Round>)
    requires forall i :: 0 <= i < |rounds| ==> rounds[i].Valid() && rounds[i].Ended() && |rounds[i].blocks| > 1
    ensures Taken(rounds) >= Given(rounds)
    ensures Taken(rounds) == Given(rounds) <==> forall i :: 0 <= i < |rounds| ==> rounds[i].Smooth()
  {
    hide Ready; hide Quota; hide FirstStuck; hide LastReturn; hide Runnable;
    if rounds != [] {
      var front, z := rounds[..|rounds| - 1], rounds[|rounds| - 1];
      TakenIsGiven(front);
      assert forall i :: 0 <= i < |front| ==> front[i] == rounds[i];
      assert (forall i :: 0 <= i < |rounds| ==> rounds[i].Smooth())
        <==> (forall i :: 0 <= i < |front| ==> rounds[i].Smooth()) && z.Smooth();
    }
  }

  /** A buffer that feeds the group through one input port of its first block. */
  ghost predicate Source(bs: seq<Block>, x: nat)
    requires bs != []
  {
    Readers(bs, x) == 1 && PortsIn(bs[0].ins, x) == 1
  }

  /** A buffer that the group feeds through one output port of its last block. */
  ghost predicate Sink(bs: seq<Block>, y: nat)
    requires bs != []
  {
    Writers(bs, y) == 1 && PortsOut(bs[|bs| - 1].outs, y) == 1
  }

  lemma {:induction false} EndsMove(rounds: seq<Round>, x: nat, y: nat)
    requires IsRun(rounds) && Fused(rounds[0].blocks) && x < |rounds[0].bufs| && y < |rounds[0].bufs|
    requires rounds[0].blocks != [] && Source(rounds[0].blocks, x) && Sink(rounds[0].blocks, y)
    ensures var a, z := rounds[0].bufs, End(rounds);
      && |z| == |a|
      && z[x].read == a[x].read + (if |rounds[0].blocks| == 1 then Given(rounds) else Taken(rounds))
      && z[y].written == a[y].written + Given(rounds)
  {
    hide End; hide Taken; hide Given; hide Fused; hide Follows; hide Readers; hide Writers;
    hide PortsIn; hide PortsOut; hide Runnable;
    RunMoves(rounds, x);
    RunMoves(rounds, y);
    SourceReaders(rounds[0].blocks, x);
  }

  /** Over any run of a fused group the total read from every input of the first block equals the total published
      to every output of the last block exactly when no round lost items. */
  lemma RunConserves(rounds: seq<Round>, x: nat, y: nat)
    requires IsRun(rounds) && Fused(rounds[0].blocks)
    requires x < |rounds[0].bufs| && y < |rounds[0].bufs|
    requires Source(rounds[0].blocks, x) && Sink(rounds[0].blocks, y)
    ensures var a, z := rounds[0].bufs, End(rounds);
      && |z| == |a|
      && (z[x].read - a[x].read == z[y].written - a[y].written
          <==> forall i :: 0 <= i < |rounds| ==> rounds[i].Smooth())
  {
    hide End; hide Taken; hide Given; hide Follows; hide Fused; hide Readers; hide Writers; hide Iterate;
    hide PortsOk; hide FirstStuck; hide Ready; hide Quota;
    EndsMove(rounds, x, y);
    SameSizes(rounds);
    if |rounds[0].blocks| > 1 {
      TakenIsGiven(rounds);
    }
  }

  lemma SourceReaders(bs: seq<Block>, x: nat)
    requires |bs| > 0 && Source(bs, x)
    ensures Readers(bs[..|bs| - 1], x) == if |bs| == 1 then 0 else 1
  {
    if |bs| > 1 {
      BlockCounts(bs[..|bs| - 1], 0, x);
    }
  }

  lemma SameSizes(rounds: seq<Round>)
    requires IsRun(rounds)
    ensures forall i :: 0 <= i < |rounds| ==>
      rounds[i].Valid() && rounds[i].Ended() && |rounds[i].blocks| == |rounds[0].blocks|
  {
    hide Follows; hide Iterate; hide Runnable;
    forall i | 0 <= i < |rounds|
      ensures |rounds[i].blocks| == |rounds[0].blocks|
    {
      PrefixIsRun(rounds, i + 1);
      RunKeepsWiring(rounds[..i + 1]);
    }
  }

  lemma PrefixIsRun(rounds: seq<Round>, n: nat)
    requires IsRun(rounds) && 0 < n <= |rounds|
    ensures IsRun(rounds[..n])
  {
    hide Follows; hide Iterate;
    var front := rounds[..n];
    forall i | 0 < i < |front|
      ensures Follows(front[i - 1], front[i])
    {
      assert Follows(rounds[i - 1], rounds[i]);
    }
  }

  /** A buffer with one reader and one writer inside the group. */
  predicate Internal(bs: seq<Block>, x: nat) {
    Readers(bs, x) == 1 && Writers(bs, x) == 1
  }

  lemma FewerReaders(bs: seq<Block>, x: nat)
    requires bs != []
    ensures Readers(bs[..|bs| - 1], x) <= Readers(bs, x)
  {
  }

  /** The fill of an internal buffer over any run: it loses what the rounds that were not smooth took, unless its
      reader is in the last block, so it stays what it was exactly when its reader is there or every round was
      smooth. */
  lemma InternalFillStays(rounds: seq<Round>, x: nat)
    requires IsRun(rounds) && Fused(rounds[0].blocks) && x < |rounds[0].bufs|
    requires Internal(rounds[0].blocks, x)
    ensures |End(rounds)| == |rounds[0].bufs| && rounds[0].blocks != []
    ensures var front, a, z := rounds[0].blocks[..|rounds[0].blocks| - 1], rounds[0].bufs, End(rounds);
      && z[x].Available() == a[x].Available() - (if Readers(front, x) == 0 then 0 else Taken(rounds) - Given(rounds))
      && (z[x].Available() == a[x].Available()
          <==> Readers(front, x) == 0 || forall i :: 0 <= i < |rounds| ==> rounds[i].Smooth())
  {
    hide End; hide Taken; hide Given; hide Follows; hide Fused; hide Iterate; hide Ready; hide PortsOk;
    hide FirstStuck; hide Quota; hide PortsIn; hide PortsOut; hide Readers; hide Writers;
    var bs := rounds[0].blocks;
    RunMoves(rounds, x);
    SameSizes(rounds);
    var n := Readers(bs[..|bs| - 1], x);
    FewerReaders(bs, x);
    if |bs| > 1 {
      TakenIsGiven(rounds);
    } else {
      NoBlocksRead(bs[..0], x);
    }
  }

  lemma NoBlocksRead(bs: seq<Block>, x: nat)
    requires bs == []
    ensures Readers(bs, x) == 0
  {
  }
}
