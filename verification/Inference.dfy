/** The requests of a batched block answer exactly the items that its rounds consume: where executor, output
    multiple and tensor shapes meet. */
module Inference {
  import opened Widths
  import opened GraphExecutor
  import opened ExecutorTheorems
  import opened Conservation
  import opened ConservedRuns
  import opened Streaming
  import PortLimits
  import opened Shapes
  import opened TritonModel
  import Options
  import Handshake

  // ---- What the server sees of a request ----

  /** A call of work: its round, what the ports' buffers told the block, and what shared memory held then: the items
      that can be read in a segment from an offset on. */
  datatype Call<T> = Call(round: Round, views: seq<View>, memory: (string, nat) -> seq<T>)

  /** What the server can read in a region. */
  ghost function Readable<T>(memory: (string, nat) -> seq<T>, region: Region): seq<T> {
    match region
    case Nowhere => []
    case Region(key, _, offset) => memory(key, offset)
  }

  /** The tensor of an input: as many items as its shape has elements, from the start of its region. */
  ghost function Held<T>(memory: (string, nat) -> seq<T>, region: Region, shape: seq<int>): seq<T>
    requires 0 <= Volume(shape) <= |Readable(memory, region)|
  {
    Readable(memory, region)[..Volume(shape)]
  }

  /** Every tensor holds `k` rows of its own width. */
  ghost predicate HasRows<T>(tensors: seq<seq<T>>, widths: seq<nat>, k: nat) {
    |tensors| == |widths| && forall p :: 0 <= p < |tensors| ==> k * widths[p] <= |tensors[p]|
  }

  /** Row `j` of every tensor. */
  ghost function TensorRow<T>(tensors: seq<seq<T>>, widths: seq<nat>, j: nat): (r: seq<seq<T>>)
    requires HasRows(tensors, widths, j + 1)
    ensures |r| == |tensors|
  {
    assert forall p :: 0 <= p < |tensors| ==> 0 <= j * widths[p] && j * widths[p] + widths[p] <= |tensors[p]| by {
      forall p | 0 <= p < |tensors|
        ensures 0 <= j * widths[p] && j * widths[p] + widths[p] <= |tensors[p]|
      {
        RowFits(widths[p], j);
      }
    }
    seq(|tensors|, p requires 0 <= p < |tensors| => tensors[p][j * widths[p]..j * widths[p] + widths[p]])
  }

  /** The server's answer: the model function on each row along the leading dimension. */
  ghost function Answer<T>(f: seq<seq<T>> -> seq<T>, tensors: seq<seq<T>>, widths: seq<nat>, k: nat): seq<T>
    requires HasRows(tensors, widths, k)
  {
    if k == 0 then []
    else
      FewerRows(tensors, widths, k);
      Answer(f, tensors, widths, k - 1) + f(TensorRow(tensors, widths, k - 1))
  }

  lemma FewerRows<T>(tensors: seq<seq<T>>, widths: seq<nat>, k: nat)
    requires k > 0 && HasRows(tensors, widths, k)
    ensures HasRows(tensors, widths, k - 1)
  {
    forall p | 0 <= p < |tensors|
      ensures (k - 1) * widths[p] <= |tensors[p]|
    {
      RowFits(widths[p], k - 1);
    }
  }

  /** Every tensor is the next `n` items of its stream. */
  ghost predicate AreNext<T>(tensors: seq<seq<T>>, streams: seq<seq<T>>, starts: seq<nat>, n: nat) {
    && |tensors| == |streams| == |starts|
    && forall p :: 0 <= p < |tensors| ==>
         starts[p] + n <= |streams[p]| && tensors[p] == streams[p][starts[p]..starts[p] + n]
  }

  /** Where the tensors are `k` batches of `m` items of their streams, in rows of `m`, the answer is the model
      function on those batches. */
  lemma {:induction false} AnswerIsOutputs<T>(f: seq<seq<T>> -> seq<T>, m: nat, streams: seq<seq<T>>,
                                              starts: seq<nat>, tensors: seq<seq<T>>, widths: seq<nat>, k: nat, n: nat)
    requires k <= n && Holds(streams, starts, m, n) && n * m >= 0
    requires |tensors| == |widths| == |streams| && forall p :: 0 <= p < |widths| ==> widths[p] == m
    requires AreNext(tensors, streams, starts, n * m)
    ensures HasRows(tensors, widths, k) && Holds(streams, starts, m, k)
    ensures Answer(f, tensors, widths, k) == Outputs(f, m, streams, starts, k)
  {
    MoreIsMore(k, n, m);
    if k > 0 {
      AnswerIsOutputs(f, m, streams, starts, tensors, widths, k - 1, n);
      RowFits(m, k - 1);
      MoreIsMore(k - 1, n, m);
      var row, batch := TensorRow(tensors, widths, k - 1), Row(streams, starts, m, k - 1);
      forall p | 0 <= p < |tensors|
        ensures row[p] == batch[p]
      {
        SliceOfSlice(streams[p], starts[p], n * m, (k - 1) * m, m);
      }
      assert row == batch;
    }
  }

  lemma SliceOfSlice<T>(s: seq<T>, a: nat, n: nat, b: nat, m: nat)
    requires a + n <= |s| && b + m <= n
    ensures s[a..a + n][b..b + m] == s[a + b..a + b + m]
  {
    var t := s[a..a + n];
    var u, v := t[b..b + m], s[a + b..a + b + m];
    forall i | 0 <= i < m
      ensures u[i] == v[i]
    {
      assert u[i] == t[b + i] == s[a + (b + i)];
    }
    assert u == v;
  }

  lemma MoreIsMore(k: nat, n: nat, m: nat)
    requires k <= n
    ensures 0 <= k * m <= n * m
  {
    assert n * m == k * m + (n - k) * m;
  }

  // ---- The request of a round ----

  /** The inputs of a model whose batches are as large as those of its first output, which an int counts in bytes,
      and that multiple. */
  ghost predicate Agree(ins: seq<Metadata>, o: Metadata, multiple: int) {
    && Usable(o) && 0 < Itemsize(o.typeName) <= 4
    && Volume(ShapeOf(o)) * Itemsize(o.typeName) <= INT_MAX
    && multiple == ItemsPerBatch(Memory(Itemsize(o.typeName), ByteSize(o), ""))
    && forall p :: 0 <= p < |ins| ==>
         && ins[p].dims != [] && (ins[p].dims[0] == 1 || ins[p].dims[0] == -1)
         && Volume(ShapeOf(ins[p])) == Volume(ShapeOf(o))
  }

  /** The shape of an input in the request for `n` items. */
  function Asked(i: Metadata, n: nat, m: nat): (shape: seq<int>)
    requires i.dims != [] && m > 0
    ensures shape != []
  {
    Reshaped(ShapeOf(i), BatchesIn(n, m))
  }

  lemma MultipleIsVolume(ins: seq<Metadata>, o: Metadata, multiple: int)
    requires Agree(ins, o, multiple)
    ensures multiple == Volume(ShapeOf(o)) > 0
  {
    hide ItemsPerBatch; hide ByteSize; hide Usable;
    OutputMultipleExact(o, ShapeOf(o), "");
    UsableExactly(o);
    VolumePositive(ShapeOf(o));
  }

  lemma GivesFit(r: Round)
    requires r.Valid() && r.Ended() && Fused(r.blocks)
    ensures r.Gives() <= INT_MAX
  {
    hide FirstStuck; hide LastReturn; hide PortLimits.Granting; hide Fused;
    if r.Gives() > 0 {
      PortLimits.QuotaIsGranting(r.blocks, r.bufs);
      PortLimits.GrantingWithin(r.blocks, r.bufs);
    }
  }

  lemma LeadingOne(i: Metadata, n: nat, m: nat)
    requires i.dims != [] && (i.dims[0] == 1 || i.dims[0] == -1) && m > 0
    ensures Volume(Asked(i, n, m)[1..]) == Volume(ShapeOf(i))
  {
    var shape := ShapeOf(i);
    assert shape == [1] + shape[1..];
    VolumeOfFront(1, shape[1..]);
    assert Asked(i, n, m)[1..] == shape[1..];
  }

  /** The tensor that a round's request gives to an input has exactly as many elements as the round consumes, in
      rows of one batch. */
  lemma RequestMatchesRound(r: Round, ins: seq<Metadata>, o: Metadata, p: nat)
    requires r.Valid() && r.Ended() && Alone(r.blocks) && p < |ins|
    requires Agree(ins, o, r.blocks[0].multiple)
    ensures var m := r.blocks[0].multiple;
      && Volume(Asked(ins[p], r.Gives(), m)) == r.Gives()
      && Volume(Asked(ins[p], r.Gives(), m)[1..]) == m
  {
    hide Runnable; hide FirstStuck; hide LastReturn; hide Readers; hide Volume; hide ItemsPerBatch; hide Usable;
    hide ByteSize; hide Ready; hide Quota;
    var m := r.blocks[0].multiple;
    MultipleIsVolume(ins, o, m);
    WholeBatches(r);
    AloneIsFused(r.blocks);
    GivesFit(r);
    InputTensorMatches(ins[p], o, r.Gives());
    LeadingOne(ins[p], r.Gives(), m);
  }

  /** The batches that work asks for are those of the round. */
  lemma WorkAsks(b: TritonBlock, n: nat)
    requires 0 < b.multiple <= INT_MAX
    ensures ToSize(b.multiple) != 0 && b.Batches(n) == BatchesIn(n, b.multiple)
  {
    SizeKeeps(b.multiple);
  }

  /** The batches of an agreeing block, and the shape that Work gives to an input. */
  lemma ServedShape(b: TritonBlock, r: Round, p: nat)
    requires b.Valid() && p < |b.model.inputs| && r.Valid() && r.Ended() && Alone(r.blocks)
    requires r.blocks[0].multiple == b.multiple && Agree(b.model.inputsKept, b.model.outputsKept[0], b.multiple)
    ensures ToSize(b.multiple) != 0 && b.multiple > 0 && b.model.inputsKept[p].dims != []
    ensures var shape := Reshaped(ShapeOf(b.model.inputsKept[p]), b.Batches(r.Gives()));
      shape == Asked(b.model.inputsKept[p], r.Gives(), b.multiple) && Volume(shape) == r.Gives()
  {
    hide Runnable; hide FirstStuck; hide LastReturn; hide Readers; hide Volume; hide ItemsPerBatch; hide Usable;
    hide ByteSize; hide Ready; hide Quota; hide ToSize;
    var ins, o := b.model.inputsKept, b.model.outputsKept[0];
    MultipleIsVolume(ins, o, b.multiple);
    MultipleFits(o);
    WorkAsks(b, r.Gives());
    RequestMatchesRound(r, ins, o, p);
  }

  lemma MultipleDivides(b: TritonBlock)
    requires b.Valid() && Agree(b.model.inputsKept, b.model.outputsKept[0], b.multiple)
    ensures ToSize(b.multiple) != 0
  {
    hide Volume; hide ItemsPerBatch; hide Usable; hide ByteSize; hide ToSize;
    var o := b.model.outputsKept[0];
    MultipleIsVolume(b.model.inputsKept, o, b.multiple);
    MultipleFits(o);
    WorkAsks(b, 0);
  }

  /** The region holds `n` items of a size. */
  predicate Covers(region: Region, n: nat, itemSize: nat) {
    region.Region? && region.bytes >= n * itemSize
  }

  /** The region that is handed over for a view holds `n` items exactly when the view has as many, as long as its
      bytes fit a size. */
  lemma RegionCovers(v: View, n: nat)
    requires v.itemSize > 0 && v.items * v.itemSize < TWO_64
    ensures Covers(RegionOf(v), n, v.itemSize) <==> v.items >= n
  {
    AtLeast(v.items, v.itemSize);
    SizeKeeps(v.items * v.itemSize);
    if v.items < n {
      Smaller'(v.items, n, v.itemSize);
    } else {
      MoreIsMore(n, v.items, v.itemSize);
    }
  }

  lemma Smaller'(a: nat, b: nat, k: nat)
    requires a < b && k > 0
    ensures a * k < b * k
  {
    assert b * k == a * k + (b - a) * k;
    AtLeast(k, b - a);
  }

  /** The executor waits for ever behind a do_work that makes this request and returns OK. */
  ghost predicate WaitsForEver(request: Request) {
    forall run :: Handshake.After(run).pc.Start? ==>
      Handshake.Orphaned(Handshake.After(run + Handshake.Attempt(request.callback.Some?)))
  }

  lemma WaitsExactlyWhen(request: Request)
    ensures WaitsForEver(request) <==> request.callback.None?
  {
    forall run | Handshake.After(run).pc.Start?
      ensures Handshake.Orphaned(Handshake.After(run + Handshake.Attempt(request.callback.Some?)))
        <==> request.callback.None?
    {
      Handshake.AttemptWaits(run, request.callback.Some?);
    }
    assert Handshake.After([]).pc.Start?;
  }

  /** A call of work for a round: the items that the round gives are reported, every input tensor has as many
      elements as the round consumes, and its region holds them exactly when the port has that many items; only
      a synchronous model leaves the executor waiting. */
  method WorkServesRound(b: TritonBlock, r: Round, ins: seq<View>, outs: seq<View>)
    returns (produced: nat, request: Request)
    requires b.Valid() && r.Valid() && r.Ended() && Alone(r.blocks) && r.blocks[0].multiple == b.multiple
    requires Agree(b.model.inputsKept, b.model.outputsKept[0], b.multiple)
    requires |ins| >= 2 && |outs| >= 1 && |ins| >= |b.model.inputs| && |outs| >= |b.model.outputs|
    modifies b.model.inputTensors, b.model.outputTensors
    ensures b.Valid() && produced == r.Gives()
    ensures request.callback == (if b.model.async then Options.Some(b.callback) else Options.None)
    ensures WaitsForEver(request) <==> !b.model.async
    ensures request.inputs == b.model.inputTensors && |request.inputs| == |b.model.inputs|
    ensures request.outputs == b.model.outputTensors && |request.outputs| == |b.model.outputs|
    ensures forall p :: 0 <= p < |request.inputs| ==> Volume(request.inputs[p].shape) == r.Gives()
    ensures forall p :: 0 <= p < |request.inputs| ==>
      var region := request.inputs[p].region;
      region.Region? && region.key == ins[p].key && region.offset == ins[p].index
    ensures forall p :: 0 <= p < |request.outputs| ==>
      var region := request.outputs[p].region;
      region.Region? && region.key == outs[p].key && region.offset == outs[p].index
    ensures forall p :: 0 <= p < |request.inputs| && Sized(ins[p]) ==>
      (Covers(request.inputs[p].region, r.Gives(), ins[p].itemSize) <==> ins[p].items >= r.Gives())
    ensures forall p :: 0 <= p < |request.outputs| && Sized(outs[p]) ==>
      (Covers(request.outputs[p].region, r.Gives(), outs[p].itemSize) <==> outs[p].items >= r.Gives())
  {
    hide Runnable; hide FirstStuck; hide LastReturn; hide Readers; hide Volume; hide ItemsPerBatch; hide ByteSize;
    hide Ready; hide Quota; hide ToSize; hide Covers; hide WaitsForEver; hide Reshaped; hide Fits; hide SameBut0;
    MultipleDivides(b);
    produced, request := b.Work(r.Gives(), ins, outs);
    WaitsExactlyWhen(request);
    forall p | 0 <= p < |request.inputs|
      ensures Volume(request.inputs[p].shape) == r.Gives()
    {
      ServedShape(b, r, p);
    }
    forall p | 0 <= p < |request.inputs| && Sized(ins[p])
      ensures Covers(request.inputs[p].region, r.Gives(), ins[p].itemSize) <==> ins[p].items >= r.Gives()
    {
      RegionCovers(ins[p], r.Gives());
    }
    forall p | 0 <= p < |request.outputs| && Sized(outs[p])
      ensures Covers(request.outputs[p].region, r.Gives(), outs[p].itemSize) <==> outs[p].items >= r.Gives()
    {
      RegionCovers(outs[p], r.Gives());
    }
  }

  /** The bytes of a view fit a size. */
  predicate Sized(v: View) {
    v.itemSize > 0 && v.items * v.itemSize < TWO_64
  }

  lemma MultipleFits(o: Metadata)
    requires Itemsize(o.typeName) > 0 && Volume(ShapeOf(o)) * Itemsize(o.typeName) <= INT_MAX
    ensures Volume(ShapeOf(o)) <= INT_MAX
  {
    VolumePositive(ShapeOf(o));
    AtLeast(Volume(ShapeOf(o)), Itemsize(o.typeName));
  }

  // ---- What the server answers over a run ----

  /** The buffers told the block what they hold, and shared memory holds that where they said: from the index on,
      the items of the stream from where the port stands. */
  ghost predicate Mapped<T>(c: Call<T>, streams: seq<seq<T>>)
    requires c.round.Valid()
  {
    var r := c.round;
    && |c.views| == |r.blocks[0].ins| == |streams|
    && forall p :: 0 <= p < |streams| ==>
         var v, b := c.views[p], r.bufs[r.blocks[0].ins[p].buf];
         && v.items == b.written - b.read && b.written <= |streams[p]|
         && v.items <= |c.memory(v.key, v.index)|
         && c.memory(v.key, v.index)[..v.items] == streams[p][b.read..b.read + v.items]
  }

  /** A call for a round of a batched block, with its streams and the metadata of its model. */
  ghost predicate Posed<T>(c: Call<T>, streams: seq<seq<T>>, ins: seq<Metadata>, o: Metadata) {
    var r := c.round;
    && r.Valid() && r.Ended() && Alone(r.blocks) && Agree(ins, o, r.blocks[0].multiple)
    && |ins| == |r.blocks[0].ins| == |streams| && Served(r, streams, r.blocks[0].multiple)
    && Covered(r) && Mapped(c, streams)
  }

  /** The regions of the request. */
  ghost function Regions<T>(c: Call<T>): (regions: seq<Region>)
    ensures |regions| == |c.views|
    ensures forall p :: 0 <= p < |regions| ==> regions[p] == RegionOf(c.views[p])
  {
    seq(|c.views|, p requires 0 <= p < |c.views| => RegionOf(c.views[p]))
  }

  lemma PosedFits<T>(r: Round, streams: seq<seq<T>>, ins: seq<Metadata>, o: Metadata)
    requires r.Valid() && r.Ended() && Alone(r.blocks) && Agree(ins, o, r.blocks[0].multiple)
    requires |ins| == |r.blocks[0].ins| == |streams| && Served(r, streams, r.blocks[0].multiple)
    ensures forall p :: 0 <= p < |ins| ==>
      var shape := Asked(ins[p], r.Gives(), r.blocks[0].multiple);
      && Volume(shape) == r.Gives() && r.Starts()[p] + r.Gives() <= |streams[p]|
      && Volume(shape[1..]) == r.blocks[0].multiple
    ensures var m := r.blocks[0].multiple; BatchesIn(r.Gives(), m) * m == r.Gives()
  {
    hide Runnable; hide FirstStuck; hide LastReturn; hide Readers; hide Volume; hide Ready; hide Quota; hide Agree;
    hide Asked;
    WholeBatches(r);
    forall p | 0 <= p < |ins|
      ensures ins[p].dims != []
      ensures Volume(Asked(ins[p], r.Gives(), r.blocks[0].multiple)) == r.Gives()
      ensures Volume(Asked(ins[p], r.Gives(), r.blocks[0].multiple)[1..]) == r.blocks[0].multiple
    {
      HasDimensions(ins, o, r.blocks[0].multiple, p);
      RequestMatchesRound(r, ins, o, p);
    }
  }

  lemma HasDimensions(ins: seq<Metadata>, o: Metadata, multiple: int, p: nat)
    requires Agree(ins, o, multiple) && p < |ins|
    ensures ins[p].dims != []
  {
  }

  /** What the request's region for an input holds is what the round consumes of the stream. */
  lemma RegionHolds<T>(c: Call<T>, streams: seq<seq<T>>, p: nat)
    requires c.round.Valid() && c.round.Ended() && Covered(c.round) && Mapped(c, streams) && p < |streams|
    ensures var n, start, readable := c.round.Gives(), c.round.Starts()[p], Readable(c.memory, Regions(c)[p]);
      n <= |readable| && start + n <= |streams[p]| && readable[..n] == streams[p][start..start + n]
  {
    hide FirstStuck; hide LastReturn; hide Ready; hide Quota; hide Iterate;
    var v, b, n := c.views[p], c.round.bufs[c.round.blocks[0].ins[p].buf], c.round.Gives();
    assert n <= v.items;
    assert c.memory(v.key, v.index)[..v.items][..n] == c.memory(v.key, v.index)[..n];
    assert streams[p][b.read..b.read + v.items][..n] == streams[p][b.read..b.read + n];
  }

  /** The shapes of a request for `n` items. */
  ghost function AskedShapes(ins: seq<Metadata>, n: nat, m: nat): (shapes: seq<seq<int>>)
    requires m > 0 && forall p :: 0 <= p < |ins| ==> ins[p].dims != []
    ensures |shapes| == |ins| && forall p :: 0 <= p < |shapes| ==> shapes[p] == Asked(ins[p], n, m)
  {
    seq(|ins|, p requires 0 <= p < |ins| => Asked(ins[p], n, m))
  }

  /** Every region holds the tensor of its shape. */
  ghost predicate Holdable<T>(memory: (string, nat) -> seq<T>, regions: seq<Region>, shapes: seq<seq<int>>) {
    && |regions| == |shapes|
    && forall p :: 0 <= p < |shapes| ==>
         && shapes[p] != [] && 0 <= Volume(shapes[p][1..])
         && 0 <= Volume(shapes[p]) <= |Readable(memory, regions[p])|
  }

  /** The tensors of a request, and the elements of one row of each by its shape. */
  ghost function Tensors<T>(memory: (string, nat) -> seq<T>, regions: seq<Region>, shapes: seq<seq<int>>)
    : (t: seq<seq<T>>)
    requires Holdable(memory, regions, shapes)
    ensures |t| == |shapes| && forall p :: 0 <= p < |t| ==> t[p] == Held(memory, regions[p], shapes[p])
  {
    seq(|shapes|, p requires 0 <= p < |shapes| => Held(memory, regions[p], shapes[p]))
  }

  ghost function RowSizes(shapes: seq<seq<int>>): (w: seq<nat>)
    requires forall p :: 0 <= p < |shapes| ==> shapes[p] != [] && 0 <= Volume(shapes[p][1..])
    ensures |w| == |shapes| && forall p :: 0 <= p < |w| ==> w[p] == Volume(shapes[p][1..])
  {
    seq(|shapes|, p requires 0 <= p < |shapes| => Volume(shapes[p][1..]))
  }

  /** The server can answer a request with these regions and shapes in `k` batches. */
  ghost predicate Answerable<T>(memory: (string, nat) -> seq<T>, regions: seq<Region>, shapes: seq<seq<int>>, k: nat) {
    Holdable(memory, regions, shapes) && HasRows(Tensors(memory, regions, shapes), RowSizes(shapes), k)
  }

  lemma PosedIsAnswerable<T>(c: Call<T>, streams: seq<seq<T>>, ins: seq<Metadata>, o: Metadata)
    requires Posed(c, streams, ins, o)
    ensures c.round.blocks[0].multiple > 0 && forall p :: 0 <= p < |ins| ==> ins[p].dims != []
    ensures var r, m := c.round, c.round.blocks[0].multiple;
      var shapes := AskedShapes(ins, r.Gives(), m);
      && Answerable(c.memory, Regions(c), shapes, BatchesIn(r.Gives(), m))
      && (forall w :: w in RowSizes(shapes) ==> w == m)
      && AreNext(Tensors(c.memory, Regions(c), shapes), streams, r.Starts(), r.Gives())
  {
    hide Runnable; hide FirstStuck; hide LastReturn; hide Readers; hide Volume; hide Ready; hide Quota; hide Served;
    hide Asked; hide BatchesIn; hide ItemsPerBatch; hide ByteSize; hide Readable; hide RegionOf; hide Covered;
    PosedFits(c.round, streams, ins, o);
    forall p | 0 <= p < |streams|
      ensures var n, start, readable := c.round.Gives(), c.round.Starts()[p], Readable(c.memory, Regions(c)[p]);
        n <= |readable| && start + n <= |streams[p]| && readable[..n] == streams[p][start..start + n]
    {
      RegionHolds(c, streams, p);
    }
  }

  /** The server's answer to the request of the call. */
  ghost function Reply<T>(f: seq<seq<T>> -> seq<T>, c: Call<T>, streams: seq<seq<T>>, ins: seq<Metadata>, o: Metadata)
    : seq<T>
    requires Posed(c, streams, ins, o)
  {
    PosedIsAnswerable(c, streams, ins, o);
    var r, m := c.round, c.round.blocks[0].multiple;
    var shapes := AskedShapes(ins, r.Gives(), m);
    Answer(f, Tensors(c.memory, Regions(c), shapes), RowSizes(shapes), BatchesIn(r.Gives(), m))
  }

  ghost predicate AllPosed<T>(calls: seq<Call<T>>, streams: seq<seq<T>>, ins: seq<Metadata>, o: Metadata) {
    forall i :: 0 <= i < |calls| ==> Posed(calls[i], streams, ins, o)
  }

  function RoundsOf<T>(calls: seq<Call<T>>): (rounds: seq<Round>)
    ensures |rounds| == |calls| && forall i :: 0 <= i < |rounds| ==> rounds[i] == calls[i].round
  {
    seq(|calls|, i requires 0 <= i < |calls| => calls[i].round)
  }

  /** The answers to the requests of a run, one behind the other. */
  ghost function Replies<T>(f: seq<seq<T>> -> seq<T>, calls: seq<Call<T>>, streams: seq<seq<T>>,
                            ins: seq<Metadata>, o: Metadata): seq<T>
    requires AllPosed(calls, streams, ins, o)
  {
    if calls == [] then []
    else
      Replies(f, calls[..|calls| - 1], streams, ins, o) + Reply(f, calls[|calls| - 1], streams, ins, o)
  }

  /** The answer to a call's request, read from its regions, is the model function on the batches that the round
      consumes. */
  lemma ReplyIsProduced<T>(f: seq<seq<T>> -> seq<T>, c: Call<T>, streams: seq<seq<T>>, ins: seq<Metadata>, o: Metadata)
    requires Posed(c, streams, ins, o)
    ensures Reply(f, c, streams, ins, o) == Produced(f, c.round.blocks[0].multiple, c.round, streams)
  {
    hide Tensors; hide RowSizes; hide Agree; hide Alone; hide FirstStuck; hide Ready; hide Holdable; hide Mapped;
    hide Covered; hide Regions; hide HasRows; hide AreNext;
    var r := c.round;
    PosedFits(r, streams, ins, o);
    PosedIsAnswerable(c, streams, ins, o);
    var m := r.blocks[0].multiple;
    var k, shapes := BatchesIn(r.Gives(), m), AskedShapes(ins, r.Gives(), m);
    AnswerIsOutputs(f, m, streams, r.Starts(), Tensors(c.memory, Regions(c), shapes), RowSizes(shapes), k, k);
  }

  lemma {:induction false} RepliesArePublished<T>(f: seq<seq<T>> -> seq<T>, m: nat, calls: seq<Call<T>>,
                                                  streams: seq<seq<T>>, ins: seq<Metadata>, o: Metadata)
    requires m > 0 && AllPosed(calls, streams, ins, o) && AllServed(RoundsOf(calls), streams, m)
    requires forall i :: 0 <= i < |calls| ==> calls[i].round.Valid() && calls[i].round.blocks[0].multiple == m
    ensures Replies(f, calls, streams, ins, o) == Published(f, m, RoundsOf(calls), streams)
  {
    hide Posed; hide Reply; hide Produced; hide Served; hide Runnable; hide FirstStuck; hide Ready;
    if calls != [] {
      var front := calls[..|calls| - 1];
      assert RoundsOf(calls)[..|calls| - 1] == RoundsOf(front);
      RepliesArePublished(f, m, front, streams, ins, o);
      ReplyIsProduced(f, calls[|calls| - 1], streams, ins, o);
    }
  }

  /** Over any run of a one-block group whose first input holds the fewest items in every round, the server's
      answers to the requests that the block makes, read from the regions that it hands over, are, one behind the
      other, the model function applied batch by batch to the input consumed: no item is skipped, none is inferred
      twice, and how the iterations cut the input does not show. */
  lemma {:induction false} RequestsStream<T>(f: seq<seq<T>> -> seq<T>, calls: seq<Call<T>>, streams: seq<seq<T>>,
                                             ins: seq<Metadata>, o: Metadata)
    requires IsRun(RoundsOf(calls)) && Alone(calls[0].round.blocks)
    requires forall i :: 0 <= i < |calls| ==>
      var r := calls[i].round; r.Valid() && PortLimits.FewestFirst(r) && Mapped(calls[i], streams)
    requires |ins| == |calls[0].round.blocks[0].ins| && Agree(ins, o, calls[0].round.blocks[0].multiple)
    ensures AllPosed(calls, streams, ins, o)
    ensures var rounds := RoundsOf(calls);
      var m, starts := rounds[0].blocks[0].multiple, rounds[0].Starts();
      var k := BatchesIn(Given(rounds), m);
      && k * m == Given(rounds)
      && Holds(streams, starts, m, k)
      && Replies(f, calls, streams, ins, o) == Outputs(f, m, streams, starts, k)
  {
    hide Follows; hide Fed; hide PortLimits.FewestFirst; hide Iterate; hide Ready; hide Readers; hide Given; hide Agree;
    hide Published; hide Outputs; hide Holds; hide BatchesIn; hide Replies; hide FirstStuck; hide Mapped; hide Covered;
    var rounds := RoundsOf(calls);
    var m := rounds[0].blocks[0].multiple;
    forall i | 0 <= i < |rounds|
      ensures PortLimits.FewestFirst(rounds[i]) && Fed(rounds[i], streams)
    {
      assert rounds[i] == calls[i].round;
      MappedIsFed(calls[i], streams);
    }
    PortLimits.FewestFirstStreams(f, rounds, streams);
    forall i | 0 <= i < |calls|
      ensures Posed(calls[i], streams, ins, o) && calls[i].round.blocks[0].multiple == m
    {
      RoundIsAlone(rounds, i);
      AloneIsFused(rounds[i].blocks);
      PortLimits.FewestFirstCovers(rounds[i]);
      FedPorts(rounds[i], streams);
    }
    RepliesArePublished(f, m, calls, streams, ins, o);
  }

  lemma MappedIsFed<T>(c: Call<T>, streams: seq<seq<T>>)
    requires c.round.Valid() && Mapped(c, streams)
    ensures Fed(c.round, streams)
  {
  }

  lemma FedPorts<T>(r: Round, streams: seq<seq<T>>)
    requires r.Valid() && Fed(r, streams)
    ensures |streams| == |r.blocks[0].ins|
  {
  }
}
