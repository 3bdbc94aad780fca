/** The model wrapper, whose tensors are reshaped in place for every request, and the block that calls it. */
module TritonModel {
  import opened Options
  import opened Widths
  import opened Names
  import opened Shapes

  /** A place in a segment of shared memory. */
  datatype Region = Nowhere | Region(key: string, bytes: nat, offset: nat)

  /** What a port's buffer tells the model: its segment, the items in it and where they start. */
  datatype View = View(key: string, items: nat, itemSize: nat, index: nat)

  function RegionOf(v: View): Region { Region(v.key, ToSize(v.items * v.itemSize), v.index) }

  /** InferInput and InferRequestedOutput. */
  class Tensor {
    const name: string
    var shape: seq<int>
    var region: Region

    constructor (name: string, shape: seq<int>)
      ensures this.name == name && this.shape == shape && region == Nowhere
    {
      this.name, this.shape, this.region := name, shape, Nowhere;
    }
  }

  /** The counters that all models share. */
  class Counters {
    var segments: nat
    var inputs: nat
    var outputs: nat
    ghost var log: seq<Registration>  // every registration made

    /** The registrations are pairwise distinct and below the counters. */
    ghost predicate Valid()
      reads this
    {
      && segments < TWO_32
      && Distinct(log)
      && forall i :: 0 <= i < |log| ==> log[i].counter < Next(log[i].direction)
    }

    function Next(d: Direction): nat
      reads this
    {
      if d == Input then inputs else outputs
    }

    constructor ()
      ensures Valid() && segments == 0 && inputs == 0 && outputs == 0 && log == []
    {
      segments, inputs, outputs, log := 0, 0, 0, [];
    }

    /** The key of the next segment. */
    method NextKey(name: string) returns (key: string)
      requires Valid()
      modifies this`segments
      ensures Valid()
      ensures key == Key(name, old(segments)) && segments == ToUInt(old(segments) + 1)
    {
      key := "/gr_" + name + Decimal(segments);
      segments := ToUInt(segments + 1);
    }

    method Register(d: Direction, name: string) returns (s: string)
      requires Valid()
      modifies this`inputs, this`outputs, this`log
      ensures Valid()
      ensures s == Registered(Registration(old(Next(d)), d, name))
      ensures log == old(log) + [Registration(old(Next(d)), d, name)]
      ensures forall e :: Next(e) == old(Next(e)) + if e == d then 1 else 0
    {
      s := Decimal(Next(d)) + Label(d) + name;
      log := log + [Registration(Next(d), d, name)];
      match d
      case Input => inputs := inputs + 1;
      case Output => outputs := outputs + 1;
    }
  }

  /** Where the segments stand after some more. */
  function Segments(from: nat, more: nat): nat { ToUInt(from + more) }

  /** The registrations that a list of tensors makes. */
  function Registrations(ms: seq<Metadata>, d: Direction, from: nat): (log: seq<Registration>)
    ensures |log| == |ms|
  {
    seq(|ms|, i requires 0 <= i < |ms| => Registration(from + i, d, ms[i].name))
  }

  /** What is stored for a list of tensors whose segments start at `segment`. */
  function MemoriesOf(ms: seq<Metadata>, segment: nat): (r: seq<Memory>)
    ensures |r| == |ms|
  {
    seq(|ms|, i requires 0 <= i < |ms| =>
      Memory(Itemsize(ms[i].typeName), ByteSize(ms[i]), Key(ms[i].name, Segments(segment, i))))
  }

  /** Distinct tensors named and shaped after their metadata; a requested output has no shape. */
  ghost predicate Created(tensors: seq<Tensor>, ms: seq<Metadata>, d: Direction)
    reads tensors
  {
    && |tensors| == |ms|
    && Distinct(tensors)
    && forall i :: 0 <= i < |ms| ==>
         && tensors[i].name == ms[i].name
         && tensors[i].shape == (if d == Input then ShapeOf(ms[i]) else [])
  }

  lemma NothingCreated(d: Direction)
    ensures Created([], [], d)
  {
  }

  lemma MoreCreated(tensors: seq<Tensor>, tensor: Tensor, ms: seq<Metadata>, i: nat, d: Direction)
    requires i < |ms| && Created(tensors, ms[..i], d)
    requires tensor !in tensors && tensor.name == ms[i].name
    requires tensor.shape == (if d == Input then ShapeOf(ms[i]) else [])
    ensures Created(tensors + [tensor], ms[..i + 1], d)
  {
    hide ShapeOf;
  }

  lemma MoreMemories(ms: seq<Metadata>, i: nat, segment: nat)
    requires i < |ms|
    ensures MemoriesOf(ms[..i + 1], segment) == MemoriesOf(ms[..i], segment)
      + [Memory(Itemsize(ms[i].typeName), ByteSize(ms[i]), Key(ms[i].name, Segments(segment, i)))]
  {
  }

  lemma MoreRegistrations(ms: seq<Metadata>, i: nat, d: Direction, from: nat)
    requires i < |ms|
    ensures Registrations(ms[..i + 1], d, from)
         == Registrations(ms[..i], d, from) + [Registration(from + i, d, ms[i].name)]
    ensures NamesOf(Registrations(ms[..i + 1], d, from))
         == NamesOf(Registrations(ms[..i], d, from)) + [Registered(Registration(from + i, d, ms[i].name))]
  {
  }

  /** A list of metadata up to the first that is not usable. */
  function Kept(ms: seq<Metadata>): seq<Metadata> { ms[..UsablePrefix(ms)] }

  /** How many of them allocate_shm sees: those kept and the one that ends them. */
  function Looked(ms: seq<Metadata>): nat {
    if UsablePrefix(ms) < |ms| then UsablePrefix(ms) + 1 else |ms|
  }

  /** A segment is drawn for every tensor kept and for the one that ends them. */
  lemma {:induction false} LookedAt(ms: seq<Metadata>, from: nat)
    ensures Segments(from, Looked(ms)) == ToUInt(from + UsablePrefix(ms) + if UsablePrefix(ms) < |ms| then 1 else 0)
  {
    hide ToUInt; hide UsablePrefix;
  }

  /** allocate_shm: sizes and key of a tensor; draws a segment number whatever the tensor is. */
  method AllocateShm(m: Metadata, shape: seq<nat>, counters: Counters) returns (memory: Memory)
    requires counters.Valid() && shape == ShapeOf(m)
    modifies counters`segments
    ensures counters.Valid() && counters.segments == ToUInt(old(counters.segments) + 1)
    ensures memory == Memory(Itemsize(m.typeName), ByteSize(m), Key(m.name, old(counters.segments)))
  {
    var key := counters.NextKey(m.name);
    var elements := NumElements(shape);
    memory := Memory(Itemsize(m.typeName), ToSize(elements * Itemsize(m.typeName)), key);
  }

  lemma NextSegment(from: nat, i: nat)
    ensures ToUInt(Segments(from, i) + 1) == Segments(from, i + 1)
  {
    Divided(from + i, TWO_32);
    MultiplesVanish(ToUInt(from + i) + 1, (from + i) / TWO_32, TWO_32);
  }

  lemma NoSegment(from: nat)
    requires from < TWO_32
    ensures Segments(from, 0) == from
  {
  }

  /** The constructor's loop over one side: stops at the first tensor without a size. */
  method Configure(d: Direction, ms: seq<Metadata>, counters: Counters)
    returns (memories: seq<Memory>, tensors: seq<Tensor>, names: seq<string>)
    requires counters.Valid()
    modifies counters
    ensures counters.Valid() && fresh(tensors)
    ensures memories == MemoriesOf(Kept(ms), old(counters.segments))
    ensures Created(tensors, Kept(ms), d)
    ensures names == NamesOf(Registrations(Kept(ms), d, old(counters.Next(d))))
    ensures counters.log == old(counters.log) + Registrations(Kept(ms), d, old(counters.Next(d)))
    ensures counters.segments == Segments(old(counters.segments), Looked(ms))
    ensures counters.segments
         == ToUInt(old(counters.segments) + UsablePrefix(ms) + if UsablePrefix(ms) < |ms| then 1 else 0)
    ensures forall e :: counters.Next(e) == old(counters.Next(e)) + if e == d then |Kept(ms)| else 0
  {
    hide ShapeOf; hide ByteSize; hide Itemsize; hide Key; hide Registered; hide UsablePrefix; hide Segments;
    hide MemoriesOf; hide Registrations; hide NamesOf; hide Created; hide Distinct; hide ToUInt;
    ghost var from, segment := counters.Next(d), counters.segments;
    LookedAt(ms, segment);
    memories, tensors, names := [], [], [];
    var i := 0;
    NoSegment(segment);
    NothingCreated(d);
    while i < |ms|
      invariant i <= |ms| && counters.Valid() && fresh(tensors)
      invariant forall k :: 0 <= k < i ==> Usable(ms[k])
      invariant counters.segments == Segments(segment, i)
      invariant memories == MemoriesOf(ms[..i], segment)
      invariant Created(tensors, ms[..i], d)
      invariant names == NamesOf(Registrations(ms[..i], d, from))
      invariant counters.log == old(counters.log) + Registrations(ms[..i], d, from)
      invariant forall e :: counters.Next(e) == old(counters.Next(e)) + if e == d then i else 0
    {
      var shape := ParseShape(ms[i]);
      var memory := AllocateShm(ms[i], shape, counters);
      NextSegment(segment, i);
      if memory.byteSize == 0 {
        UsablePrefixIs(ms, i);
        return;
      }
      var tensor, name := Create(d, ms[i], shape, counters);
      MoreCreated(tensors, tensor, ms, i, d);
      MoreMemories(ms, i, segment);
      MoreRegistrations(ms, i, d, from);
      memories, tensors, names := memories + [memory], tensors + [tensor], names + [name];
      i := i + 1;
    }
    UsablePrefixIs(ms, i);
  }

  /** create_triton_input and create_triton_output. */
  method Create(d: Direction, m: Metadata, shape: seq<nat>, counters: Counters) returns (tensor: Tensor, name: string)
    requires counters.Valid()
    modifies counters`inputs, counters`outputs, counters`log
    ensures counters.Valid() && fresh(tensor)
    ensures tensor.name == m.name && tensor.shape == if d == Input then shape else []
    ensures name == Registered(Registration(old(counters.Next(d)), d, m.name))
    ensures counters.log == old(counters.log) + [Registration(old(counters.Next(d)), d, m.name)]
    ensures forall e :: counters.Next(e) == old(counters.Next(e)) + if e == d then 1 else 0
  {
    tensor := new Tensor(m.name, if d == Input then shape else []);
    name := counters.Register(d, m.name);
  }

  /** The stored sizes are those of the tensor. */
  predicate Fits(memory: Memory, m: Metadata) {
    Usable(m) && memory.itemSize == Itemsize(m.typeName) && memory.byteSize == ByteSize(m)
  }

  lemma KeptIs(ms: seq<Metadata>)
    ensures Kept(ms) == ms[..UsablePrefix(ms)]
  {
  }

  lemma KeptFit(ms: seq<Metadata>, segment: nat)
    ensures |Kept(ms)| == |MemoriesOf(Kept(ms), segment)|
    ensures forall i :: 0 <= i < |Kept(ms)| ==> Fits(MemoriesOf(Kept(ms), segment)[i], Kept(ms)[i])
    ensures ms == [] ==> Kept(ms) == []
  {
  }

  /** Two shapes that agree behind the leading dimension. */
  predicate SameBut0(a: seq<int>, b: seq<int>) {
    |a| == |b| && (a != [] ==> a[1..] == b[1..])
  }

  /** An inference request: its tensors, and the callback when it is asynchronous. */
  datatype Request = Request(inputs: seq<Tensor>, outputs: seq<Tensor>, callback: Option<nat>)

  /** No tensor is in both. */
  ghost predicate Disjoint(a: seq<Tensor>, b: seq<Tensor>) {
    forall i, j :: 0 <= i < |a| && 0 <= j < |b| ==> a[i] != b[j]
  }

  class Model {
    const async: bool
    var inputs: seq<Memory>
    var outputs: seq<Memory>
    var inputTensors: seq<Tensor>
    var outputTensors: seq<Tensor>
    var inputNames: seq<string>
    var outputNames: seq<string>
    ghost var inputsKept: seq<Metadata>
    ghost var outputsKept: seq<Metadata>

    /** Both sides hold exactly the tensors kept, all of them usable, and a reshaped tensor differs from its
        metadata in the leading dimension only. */
    ghost predicate Valid()
      reads this, inputTensors, outputTensors
    {
      && |inputs| == |inputTensors| == |inputNames| == |inputsKept|
      && |outputs| == |outputTensors| == |outputNames| == |outputsKept|
      && Distinct(inputTensors) && Distinct(outputTensors) && Disjoint(inputTensors, outputTensors)
      && (forall i :: 0 <= i < |inputs| ==> Fits(inputs[i], inputsKept[i]))
      && (forall i :: 0 <= i < |outputs| ==> Fits(outputs[i], outputsKept[i]))
      && (forall i :: 0 <= i < |inputs| ==> SameBut0(inputTensors[i].shape, ShapeOf(inputsKept[i])))
    }

    /** Connects to a server: with a healthy one both sides keep the longest usable prefix of what the server
        describes, register each tensor kept and draw a segment for each tensor looked at. */
    constructor (async: bool, healthy: bool, ins: seq<Metadata>, outs: seq<Metadata>, counters: Counters)
      requires counters.Valid()
      modifies counters
      ensures Valid() && counters.Valid() && fresh(inputTensors) && fresh(outputTensors) && this.async == async
      ensures inputsKept == (if healthy then ins[..UsablePrefix(ins)] else [])
      ensures outputsKept == (if healthy then outs[..UsablePrefix(outs)] else [])
      ensures inputs == MemoriesOf(inputsKept, old(counters.segments))
      ensures outputs == MemoriesOf(outputsKept, Segments(old(counters.segments), if healthy then Looked(ins) else 0))
      ensures Created(inputTensors, inputsKept, Input) && Created(outputTensors, outputsKept, Output)
      ensures inputNames == NamesOf(Registrations(inputsKept, Input, old(counters.inputs)))
      ensures outputNames == NamesOf(Registrations(outputsKept, Output, old(counters.outputs)))
      ensures counters.log == old(counters.log) + Registrations(inputsKept, Input, old(counters.inputs))
                                                + Registrations(outputsKept, Output, old(counters.outputs))
      ensures counters.inputs == old(counters.inputs) + |inputsKept|
      ensures counters.outputs == old(counters.outputs) + |outputsKept|
    {
      hide Segments; hide Registrations; hide NamesOf; hide ShapeOf; hide MemoriesOf; hide Fits; hide Kept;
      hide UsablePrefix; hide Key; hide Decimal; hide Looked;
      KeptIs(ins);
      KeptIs(outs);
      KeptFit(if healthy then ins else [], counters.segments);
      KeptFit(if healthy then outs else [], Segments(counters.segments, if healthy then Looked(ins) else 0));
      var stored, tensors, names := [], [], [];
      var stored', tensors', names' := [], [], [];
      if healthy {
        stored, tensors, names := Configure(Input, ins, counters);
        stored', tensors', names' := Configure(Output, outs, counters);
      }
      this.async := async;
      inputs, inputTensors, inputNames, inputsKept := stored, tensors, names, Kept(if healthy then ins else []);
      outputs, outputTensors, outputNames, outputsKept := stored', tensors', names', Kept(if healthy then outs else []);
    }

    /** Overrides the leading dimension of every input tensor and points it at its port's buffer. */
    method PrepareInputs(ins: seq<View>, batch: nat)
      requires Valid() && |ins| >= |inputs|
      requires forall i :: 0 <= i < |inputs| ==> inputsKept[i].dims != []
      modifies inputTensors
      ensures Valid()
      ensures forall i :: 0 <= i < |inputs| ==>
        && inputTensors[i].shape == Reshaped(ShapeOf(inputsKept[i]), batch)
        && inputTensors[i].region == RegionOf(ins[i])
    {
      hide ShapeOf; hide ToLong; hide Fits; hide ToSize;
      var i := 0;
      while i < |inputTensors|
        invariant i <= |inputTensors|
        invariant forall k :: 0 <= k < i ==>
          && inputTensors[k].shape == Reshaped(ShapeOf(inputsKept[k]), batch)
          && inputTensors[k].region == RegionOf(ins[k])
        invariant forall k :: i <= k < |inputs| ==> SameBut0(inputTensors[k].shape, ShapeOf(inputsKept[k]))
      {
        var tensor := inputTensors[i];
        assert tensor.shape[0 := ToLong(batch)] == Reshaped(ShapeOf(inputsKept[i]), batch);
        tensor.shape := tensor.shape[0 := ToLong(batch)];
        tensor.region := RegionOf(ins[i]);
        i := i + 1;
      }
    }

    method PrepareOutputs(outs: seq<View>)
      requires Valid() && |outs| >= |outputs|
      modifies outputTensors`region
      ensures Valid()
      ensures forall i :: 0 <= i < |outputs| ==> outputTensors[i].region == RegionOf(outs[i])
    {
      hide ShapeOf; hide ToLong; hide Fits; hide ToSize; hide SameBut0;
      var i := 0;
      while i < |outputTensors|
        invariant i <= |outputTensors|
        invariant forall k :: 0 <= k < i ==> outputTensors[k].region == RegionOf(outs[k])
      {
        var tensor := outputTensors[i];
        tensor.region := RegionOf(outs[i]);
        i := i + 1;
      }
    }

    /** infer_batch_zerocopy: asks for so many batches, whatever was asked for before. */
    method Infer(ins: seq<View>, outs: seq<View>, batch: nat, callback: nat) returns (request: Request)
      requires Valid() && |ins| >= |inputs| && |outs| >= |outputs|
      requires forall i :: 0 <= i < |inputs| ==> inputsKept[i].dims != []
      modifies inputTensors, outputTensors
      ensures Valid()
      ensures forall i :: 0 <= i < |inputs| ==>
        && inputTensors[i].shape == Reshaped(ShapeOf(inputsKept[i]), batch)
        && inputTensors[i].region == Region(ins[i].key, ToSize(ins[i].items * ins[i].itemSize), ins[i].index)
      ensures forall i :: 0 <= i < |outputs| ==>
        outputTensors[i].region == Region(outs[i].key, ToSize(outs[i].items * outs[i].itemSize), outs[i].index)
      ensures request == Request(inputTensors, outputTensors, if async then Some(callback) else None)
    {
      hide ShapeOf; hide ToLong; hide Fits; hide ToSize; hide SameBut0; hide Reshaped;
      PrepareInputs(ins, batch);
      PrepareOutputs(outs);
      request := Request(inputTensors, outputTensors, if async then Some(callback) else None);
    }
  }

  /** The callback that a block starts with, which does nothing. */
  const NO_CALLBACK: nat := 0

  class TritonBlock {
    const model: Model
    const multiple: int  // the output multiple
    var callback: nat

    ghost predicate Valid()
      reads this, model, model.inputTensors, model.outputTensors
    {
      model.Valid() && model.outputs != [] && multiple == ItemsPerBatch(model.outputs[0])
    }

    constructor (model: Model)
      requires model.Valid() && model.outputs != []
      ensures Valid() && this.model == model && callback == NO_CALLBACK
    {
      UsableExactly(model.outputsKept[0]);
      this.model, callback := model, NO_CALLBACK;
      multiple := ItemsPerBatch(model.outputs[0]);
    }

    method SetAsyncCallback(callback: nat)
      requires Valid()
      modifies this`callback
      ensures Valid() && this.callback == callback
    {
      this.callback := callback;
    }

    /** Batches that are asked for, and items reported as produced, for `n` items of room. */
    function Batches(n: nat): (k: nat)
      reads this
      requires ToSize(multiple) != 0
      ensures k * ToSize(multiple) <= n < k * ToSize(multiple) + ToSize(multiple)
    {
      Divided(n, ToSize(multiple));
      n / ToSize(multiple)
    }

    /** work: asks the model for the batches that fit, with the callback set last, and reports every item as
        produced on every output. */
    method Work(n: nat, ins: seq<View>, outs: seq<View>) returns (produced: nat, request: Request)
      requires Valid() && |ins| >= 2 && |outs| >= 1 && |ins| >= |model.inputs| && |outs| >= |model.outputs|
      requires forall i :: 0 <= i < |model.inputs| ==> model.inputsKept[i].dims != []
      requires ToSize(multiple) != 0
      modifies model.inputTensors, model.outputTensors
      ensures Valid() && produced == n
      ensures request == Request(model.inputTensors, model.outputTensors,
                                 if model.async then Some(callback) else None)
      ensures forall i :: 0 <= i < |model.inputs| ==>
        && model.inputTensors[i].shape == Reshaped(ShapeOf(model.inputsKept[i]), Batches(n))
        && model.inputTensors[i].region == Region(ins[i].key, ToSize(ins[i].items * ins[i].itemSize), ins[i].index)
      ensures forall i :: 0 <= i < |model.outputs| ==>
        model.outputTensors[i].region == Region(outs[i].key, ToSize(outs[i].items * outs[i].itemSize), outs[i].index)
      ensures multiple > 0 ==> (Batches(n) * multiple == produced <==> n % multiple == 0)
    {
      hide Reshaped; hide ShapeOf; hide SameBut0; hide ToSize; hide Fits; hide ItemsPerBatch;
      PerBatchExact(model.outputs[0], model.outputsKept[0], n);
      var items := ItemsPerBatch(model.outputs[0]);
      request := model.Infer(ins, outs, n / ToSize(items), callback);
      produced := n;
    }
  }

  /** triton_model::make: no model when the constructor kept no input. */
  method MakeModel(async: bool, healthy: bool, ins: seq<Metadata>, outs: seq<Metadata>, counters: Counters)
    returns (model: Option<Model>)
    requires counters.Valid()
    modifies counters
    ensures counters.Valid()
    ensures model.None? <==> !healthy || UsablePrefix(ins) == 0
    ensures model.Some? ==>
      var m := model.value;
      && fresh(m) && fresh(m.inputTensors) && fresh(m.outputTensors) && m.Valid() && m.async == async
      && m.inputsKept == ins[..UsablePrefix(ins)] && m.outputsKept == outs[..UsablePrefix(outs)]
  {
    hide UsablePrefix;
    var m := new Model(async, healthy, ins, outs, counters);
    model := if |m.inputs| == 0 then None else Some(m);
  }

  /** The constructor of the block as its caller sees it: an exception, here None, when there is no model. */
  method MakeBlock(model: Option<Model>) returns (block: Option<TritonBlock>)
    requires model.Some? ==> model.value.Valid() && model.value.outputs != []
    ensures block.None? <==> model.None?
    ensures block.Some? ==>
      var b := block.value;
      b.Valid() && b.model == model.value && b.callback == NO_CALLBACK
  {
    if model.None? {
      return None;
    }
    var b := new TritonBlock(model.value);
    block := Some(b);
  }

  lemma PerBatchExact(memory: Memory, m: Metadata, n: nat)
    requires Fits(memory, m)
    ensures 0 < memory.itemSize <= 4
    ensures var items := ItemsPerBatch(memory);
      items > 0 ==> ToSize(items) == items && (n / items * items == n <==> n % items == 0)
  {
    UsableExactly(m);
    var items := ItemsPerBatch(memory);
    if items > 0 {
      SizeKeeps(items);
      BatchesExact(n, items);
    }
  }

  // ---- Any history of models ----

  /** What the server said of a model when it was constructed. */
  datatype Construction = Construction(ins: seq<Metadata>, outs: seq<Metadata>)

  function Side(c: Construction, d: Direction): seq<Metadata> {
    Kept(if d == Input then c.ins else c.outs)
  }

  /** Where a counter stands behind a history. */
  function Drawn(history: seq<Construction>, d: Direction): nat {
    if history == [] then 0 else Drawn(history[..|history| - 1], d) + |Side(history[|history| - 1], d)|
  }

  /** Every registration of a history. */
  function LogOf(history: seq<Construction>): seq<Registration> {
    if history == [] then []
    else
      var front, c := history[..|history| - 1], history[|history| - 1];
      LogOf(front) + Registrations(Side(c, Input), Input, Drawn(front, Input))
                   + Registrations(Side(c, Output), Output, Drawn(front, Output))
  }

  ghost predicate Below(log: seq<Registration>, inputs: nat, outputs: nat) {
    forall i :: 0 <= i < |log| ==> log[i].counter < if log[i].direction == Input then inputs else outputs
  }

  lemma {:induction false} LogDistinct(history: seq<Construction>)
    ensures Distinct(LogOf(history))
    ensures Below(LogOf(history), Drawn(history, Input), Drawn(history, Output))
  {
    hide Kept;
    if history != [] {
      LogDistinct(history[..|history| - 1]);
    }
  }

  /** Over any sequence of model constructions, with any tensor names, the registered names are pairwise distinct
      and each reads back as the one registration behind it. */
  lemma NamesStayDistinct(history: seq<Construction>)
    ensures var log := LogOf(history);
      && Distinct(NamesOf(log))
      && forall i :: 0 <= i < |log| ==> Parse(NamesOf(log)[i]) == Some(log[i])
  {
    var log := LogOf(history);
    LogDistinct(history);
    NamesDistinct(log);
    forall i | 0 <= i < |log|
      ensures Parse(Registered(log[i])) == Some(log[i])
    {
      ParseRegistered(log[i]);
    }
  }
}
