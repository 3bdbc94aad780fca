/** The output stream of a group of one batched block does not depend on how its iterations cut the input. */
module Streaming {
  import Widths
  import opened GraphExecutor
  import opened ExecutorTheorems
  import opened Conservation
  import opened ConservedRuns

  // ---- The model function, batch by batch ----

  /** Every stream holds `k` batches of `m` items behind its start. */
  ghost predicate Holds<T>(streams: seq<seq<T>>, starts: seq<nat>, m: nat, k: nat) {
    |starts| == |streams| && forall p :: 0 <= p < |streams| ==> starts[p] + k * m <= |streams[p]|
  }

  /** Batch `j` of every stream. */
  ghost function Row<T>(streams: seq<seq<T>>, starts: seq<nat>, m: nat, j: nat): (r: seq<seq<T>>)
    requires Holds(streams, starts, m, j + 1)
    ensures |r| == |streams|
    ensures forall p :: 0 <= p < |r| ==> |r[p]| == m
  {
    RowFits(m, j);
    seq(|streams|, p requires 0 <= p < |streams| => streams[p][starts[p] + j * m..starts[p] + j * m + m])
  }

  lemma RowFits(m: nat, j: nat)
    ensures (j + 1) * m == j * m + m && j * m >= 0
  {
  }

  /** The outputs of the model function `f` on `k` batches, one behind the other. */
  ghost function Outputs<T>(f: seq<seq<T>> -> seq<T>, m: nat, streams: seq<seq<T>>, starts: seq<nat>, k: nat): seq<T>
    requires Holds(streams, starts, m, k)
  {
    if k == 0 then []
    else
      RowFits(m, k - 1);
      Outputs(f, m, streams, starts, k - 1) + f(Row(streams, starts, m, k - 1))
  }

  function Shifted(starts: seq<nat>, n: nat): (r: seq<nat>)
    ensures |r| == |starts| && forall p :: 0 <= p < |r| ==> r[p] == starts[p] + n
  {
    seq(|starts|, p requires 0 <= p < |starts| => starts[p] + n)
  }

  lemma HoldsLater<T>(streams: seq<seq<T>>, starts: seq<nat>, m: nat, a: nat, b: nat)
    requires Holds(streams, starts, m, a + b)
    ensures a * m >= 0 && Holds(streams, starts, m, a) && Holds(streams, Shifted(starts, a * m), m, b)
  {
    assert (a + b) * m == a * m + b * m && a * m >= 0 && b * m >= 0;
  }

  lemma RowLater<T>(streams: seq<seq<T>>, starts: seq<nat>, m: nat, a: nat, j: nat)
    requires a * m >= 0 && Holds(streams, starts, m, a + j + 1) && Holds(streams, Shifted(starts, a * m), m, j + 1)
    ensures Row(streams, starts, m, a + j) == Row(streams, Shifted(starts, a * m), m, j)
  {
    assert (a + j) * m == a * m + j * m;
  }

  /** Batches can be run in two goes. */
  lemma {:induction false} OutputsSplit<T>(f: seq<seq<T>> -> seq<T>, m: nat, streams: seq<seq<T>>, starts: seq<nat>,
                                           a: nat, b: nat)
    requires Holds(streams, starts, m, a + b)
    ensures a * m >= 0 && Holds(streams, starts, m, a) && Holds(streams, Shifted(starts, a * m), m, b)
    ensures Outputs(f, m, streams, starts, a + b)
         == Outputs(f, m, streams, starts, a) + Outputs(f, m, streams, Shifted(starts, a * m), b)
    decreases b
  {
    HoldsLater(streams, starts, m, a, b);
    if b > 0 {
      HoldsLater(streams, starts, m, a + (b - 1), 1);
      OutputsSplit(f, m, streams, starts, a, b - 1);
      RowLater(streams, starts, m, a, b - 1);
    }
  }

  // ---- What a round publishes ----

  /** A batched block, alone in its group, each of its input ports on a buffer of its own. */
  ghost predicate Alone(bs: seq<Block>) {
    && |bs| == 1 && bs[0].ins != [] && bs[0].outs != [] && bs[0].multipleSet && bs[0].multiple > 0
    && forall p :: 0 <= p < |bs[0].ins| ==> Readers(bs, bs[0].ins[p].buf) == 1
  }

  /** Every input port has the items that the round consumes. */
  ghost predicate Covered(r: Round)
    requires r.Valid() && r.Ended()
  {
    forall p :: 0 <= p < |r.blocks[0].ins| ==>
      var b := r.bufs[r.blocks[0].ins[p].buf];
      b.read + r.Gives() <= b.written
  }

  /** The streams hold, port by port, everything that has been published when the round begins. */
  ghost predicate Fed<T>(r: Round, streams: seq<seq<T>>)
    requires r.Valid()
  {
    |streams| == |r.blocks[0].ins|
    && forall p :: 0 <= p < |streams| ==> r.bufs[r.blocks[0].ins[p].buf].written <= |streams[p]|
  }

  /** How many batches of `m` there are in `n` items. */
  function BatchesIn(n: nat, m: nat): nat
    requires m > 0
  {
    n / m
  }

  /** The streams hold every batch of the round. */
  ghost predicate Served<T>(r: Round, streams: seq<seq<T>>, m: nat)
    requires r.Valid() && r.Ended() && m > 0
  {
    Holds(streams, r.Starts(), m, BatchesIn(r.Gives(), m))
  }

  /** What a round publishes on an output: the model function on the batches that it consumes. */
  ghost function Produced<T>(f: seq<seq<T>> -> seq<T>, m: nat, r: Round, streams: seq<seq<T>>): seq<T>
    requires m > 0 && r.Valid() && r.Ended() && Served(r, streams, m)
  {
    Outputs(f, m, streams, r.Starts(), BatchesIn(r.Gives(), m))
  }

  ghost predicate AllServed<T>(rounds: seq<Round>, streams: seq<seq<T>>, m: nat)
    requires m > 0
  {
    forall i :: 0 <= i < |rounds| ==> rounds[i].Valid() && rounds[i].Ended() && Served(rounds[i], streams, m)
  }

  /** What a run publishes, round by round. */
  ghost function Published<T>(f: seq<seq<T>> -> seq<T>, m: nat, rounds: seq<Round>, streams: seq<seq<T>>): seq<T>
    requires m > 0 && AllServed(rounds, streams, m)
  {
    if rounds == [] then []
    else
      Published(f, m, rounds[..|rounds| - 1], streams) + Produced(f, m, rounds[|rounds| - 1], streams)
  }

  // ---- One round ----

  /** A round consumes and publishes whole batches. */
  lemma WholeBatches(r: Round)
    requires r.Valid() && r.Ended() && Alone(r.blocks)
    ensures r.Gives() % r.blocks[0].multiple == 0
    ensures BatchesIn(r.Gives(), r.blocks[0].multiple) * r.blocks[0].multiple == r.Gives()
  {
    hide Ready; hide Granted; hide FirstStuck; hide LastReturn; hide Runnable;
    var bs, m := r.blocks, r.blocks[0].multiple;
    if r.Gives() > 0 {
      assert Fused(bs);
      GrantedKeeps(bs, r.bufs);
      var g := Granted(bs, r.bufs);
      var nin, nout := g[0].ins[0].nItems, g[|g| - 1].outs[0].nItems;
      Widths.FloorIsMultiple(if nin < nout then nin else nout, m);
    }
    Widths.Divided(r.Gives(), m);
  }

  lemma CoveredIsServed<T>(r: Round, streams: seq<seq<T>>)
    requires r.Valid() && r.Ended() && Alone(r.blocks) && Covered(r) && Fed(r, streams)
    ensures Served(r, streams, r.blocks[0].multiple)
  {
    WholeBatches(r);
  }

  // ---- Whole runs ----

  /** Every round of a run has the wiring of the first. */
  lemma RoundIsAlone(rounds: seq<Round>, i: nat)
    requires IsRun(rounds) && Alone(rounds[0].blocks) && i < |rounds|
    ensures Alone(rounds[i].blocks) && rounds[i].blocks[0].multiple == rounds[0].blocks[0].multiple > 0
    ensures |rounds[i].blocks[0].ins| == |rounds[0].blocks[0].ins| && |rounds[0].blocks| == 1
    ensures forall p :: 0 <= p < |rounds[0].blocks[0].ins| ==>
      rounds[i].blocks[0].ins[p].buf == rounds[0].blocks[0].ins[p].buf
  {
    hide IsRun; hide Readers;
    PrefixIsRun(rounds, i + 1);
    RunKeepsWiring(rounds[..i + 1]);
    var a, b := rounds[i].blocks, rounds[0].blocks;
    assert rounds[..i + 1][i] == rounds[i] && rounds[..i + 1][0] == rounds[0];
    forall p | 0 <= p < |a[0].ins|
      ensures Readers(a, a[0].ins[p].buf) == 1
    {
      SameCounts(a, b, a[0].ins[p].buf);
      assert Readers(b, b[0].ins[p].buf) == 1;
    }
  }

  /** Where the ports stand behind a run. */
  lemma PortMoves(rounds: seq<Round>, p: nat)
    requires IsRun(rounds) && Alone(rounds[0].blocks) && p < |rounds[0].blocks[0].ins|
    ensures var x := rounds[0].blocks[0].ins[p].buf;
      && x < |rounds[0].bufs| && |End(rounds)| == |rounds[0].bufs|
      && End(rounds)[x].read == rounds[0].bufs[x].read + Given(rounds)
  {
    hide End; hide Follows; hide Taken; hide Given; hide Fused; hide Readers;
    var bs, x := rounds[0].blocks, rounds[0].blocks[0].ins[p].buf;
    AloneIsFused(bs);
    assert Readers(bs, x) == 1 && Readers(bs[..0], x) == 0 by { NoReaders(bs[..0], x); }
    RunMoves(rounds, x);
  }

  /** Where the last round of a run finds its ports. */
  lemma LastStarts(rounds: seq<Round>)
    requires IsRun(rounds) && Alone(rounds[0].blocks) && |rounds| > 1
    ensures rounds[|rounds| - 1].Starts() == Shifted(rounds[0].Starts(), Given(rounds[..|rounds| - 1]))
  {
    hide End; hide Follows; hide Given; hide Fused; hide Readers; hide Iterate; hide Ready;
    var front, z, ports := rounds[..|rounds| - 1], rounds[|rounds| - 1], rounds[0].blocks[0].ins;
    FrontIsRun(rounds);
    RoundIsAlone(rounds, |rounds| - 1);
    forall p | 0 <= p < |ports|
      ensures z.Starts()[p] == rounds[0].Starts()[p] + Given(front)
    {
      PortMoves(front, p);
      LastPort(rounds, p);
    }
  }

  lemma LastPort(rounds: seq<Round>, p: nat)
    requires IsRun(rounds) && Alone(rounds[0].blocks) && |rounds| > 1 && p < |rounds[0].blocks[0].ins|
    ensures var x, front, z := rounds[0].blocks[0].ins[p].buf, rounds[..|rounds| - 1], rounds[|rounds| - 1];
      IsRun(front) && x < |z.bufs| && x < |End(front)| && z.bufs[x].read == End(front)[x].read
  {
    hide Follows; hide Given; hide Fused; hide Readers; hide Iterate; hide Ready;
    FrontIsRun(rounds);
    AloneIsFused(rounds[0].blocks);
    OneMoreRound(rounds, rounds[0].blocks[0].ins[p].buf);
  }

  lemma AloneIsFused(bs: seq<Block>)
    requires Alone(bs)
    ensures Fused(bs)
  {
  }

  lemma NoReaders(bs: seq<Block>, x: nat)
    requires bs == []
    ensures Readers(bs, x) == 0
  {
  }

  // ---- Chunking independence ----

  lemma CoveredAreServed<T>(rounds: seq<Round>, streams: seq<seq<T>>)
    requires IsRun(rounds) && Alone(rounds[0].blocks)
    requires forall i :: 0 <= i < |rounds| ==> Covered(rounds[i]) && Fed(rounds[i], streams)
    ensures AllServed(rounds, streams, rounds[0].blocks[0].multiple)
  {
    hide Follows; hide Covered; hide Fed; hide Served; hide Iterate; hide Ready; hide Readers;
    forall i | 0 <= i < |rounds|
      ensures Served(rounds[i], streams, rounds[0].blocks[0].multiple)
    {
      RoundIsAlone(rounds, i);
      CoveredIsServed(rounds[i], streams);
    }
  }

  /** However the iterations of a run cut the input, what they publish is the model function, batch by batch, on
      the input consumed: neither more nor less, and in order. */
  lemma {:induction false} ChunkingIndependence<T>(f: seq<seq<T>> -> seq<T>, rounds: seq<Round>, streams: seq<seq<T>>)
    requires IsRun(rounds) && Alone(rounds[0].blocks)
    requires AllServed(rounds, streams, rounds[0].blocks[0].multiple)
    ensures var m, starts := rounds[0].blocks[0].multiple, rounds[0].Starts();
      var k := BatchesIn(Given(rounds), m);
      && k * m == Given(rounds)
      && Holds(streams, starts, m, k)
      && Published(f, m, rounds, streams) == Outputs(f, m, streams, starts, k)
  {
    hide Follows; hide Alone; hide AllServed; hide Published; hide Given; hide Outputs; hide Holds; hide Shifted;
    hide BatchesIn; hide Iterate; hide Ready; hide FirstStuck; hide PortsOk;
    LastRound(f, rounds, streams);
    var m, starts := rounds[0].blocks[0].multiple, rounds[0].Starts();
    var front, z := rounds[..|rounds| - 1], rounds[|rounds| - 1];
    if |rounds| == 1 {
      assert [] + Produced(f, m, z, streams) == Produced(f, m, z, streams);
    } else {
      FrontIsRun(rounds);
      ChunkingIndependence(f, front, streams);
      LastStarts(rounds);
      OutputsJoin(f, m, streams, starts, BatchesIn(Given(front), m), BatchesIn(z.Gives(), m), Given(rounds));
    }
  }

  /** What the last round of a run adds to it. */
  lemma LastRound<T>(f: seq<seq<T>> -> seq<T>, rounds: seq<Round>, streams: seq<seq<T>>)
    requires IsRun(rounds) && Alone(rounds[0].blocks)
    requires AllServed(rounds, streams, rounds[0].blocks[0].multiple)
    ensures rounds != [] && rounds[0].Valid() && |rounds[0].blocks| == 1
    ensures var m, front, z := rounds[0].blocks[0].multiple, rounds[..|rounds| - 1], rounds[|rounds| - 1];
      && m > 0 && z.Valid() && z.Ended() && AllServed(front, streams, m) && Served(z, streams, m)
      && BatchesIn(z.Gives(), m) * m == z.Gives()
      && Given(rounds) == Given(front) + z.Gives() && (|rounds| == 1 ==> Given(front) == 0)
      && Published(f, m, rounds, streams) == Published(f, m, front, streams) + Produced(f, m, z, streams)
      && (|rounds| == 1 ==> Published(f, m, front, streams) == [])
  {
    hide Follows; hide Iterate; hide Ready; hide Alone; hide Produced; hide Served;
    RoundIsAlone(rounds, |rounds| - 1);
    WholeBatches(rounds[|rounds| - 1]);
  }

  lemma OutputsJoin<T>(f: seq<seq<T>> -> seq<T>, m: nat, streams: seq<seq<T>>, starts: seq<nat>,
                       a: nat, b: nat, n: nat)
    requires m > 0 && a * m >= 0 && n == a * m + b * m
    requires Holds(streams, starts, m, a) && Holds(streams, Shifted(starts, a * m), m, b)
    ensures BatchesIn(n, m) == a + b && BatchesIn(n, m) * m == n && Holds(streams, starts, m, a + b)
    ensures Outputs(f, m, streams, starts, a + b)
         == Outputs(f, m, streams, starts, a) + Outputs(f, m, streams, Shifted(starts, a * m), b)
  {
    assert (a + b) * m == n;
    Widths.DivisionIs(n, m, a + b, 0);
    OutputsSplit(f, m, streams, starts, a, b);
  }

  lemma {:induction false} OutputsLength<T>(f: seq<seq<T>> -> seq<T>, m: nat, streams: seq<seq<T>>, starts: seq<nat>,
                                            k: nat)
    requires Holds(streams, starts, m, k)
    requires forall row :: |f(row)| == m
    ensures |Outputs(f, m, streams, starts, k)| == k * m
  {
    if k > 0 {
      RowFits(m, k - 1);
      OutputsLength(f, m, streams, starts, k - 1);
    }
  }

  /** Two runs that start alike and consume as much publish the same, however differently they cut it. */
  lemma TwoCutsAgree<T>(f: seq<seq<T>> -> seq<T>, a: seq<Round>, b: seq<Round>, streams: seq<seq<T>>)
    requires IsRun(a) && IsRun(b) && Alone(a[0].blocks) && Alone(b[0].blocks)
    requires a[0].Starts() == b[0].Starts() && a[0].blocks[0].multiple == b[0].blocks[0].multiple
    requires AllServed(a, streams, a[0].blocks[0].multiple) && AllServed(b, streams, a[0].blocks[0].multiple)
    requires Given(a) == Given(b)
    ensures Published(f, a[0].blocks[0].multiple, a, streams) == Published(f, a[0].blocks[0].multiple, b, streams)
  {
    hide IsRun; hide AllServed; hide Given; hide Published; hide Outputs; hide Alone;
    ChunkingIndependence(f, a, streams);
    ChunkingIndependence(f, b, streams);
  }
}
