/** Tensor shapes, their sizes in elements, bytes and batches, and what of that survives machine integers. */
module Shapes {
  import GraphExecutor
  import ExecutorTheorems
  import opened Widths

  /** What the server says of one input or output of a model. */
  datatype Metadata = Metadata(dims: seq<int>, name: string, typeName: string)

  /** io_memory_t: item size and size of one batch, in bytes, and the key of the segment. */
  datatype Memory = Memory(itemSize: nat, byteSize: nat, key: string)

  // ---- Shapes ----

  function Magnitude(d: int): nat { if d < 0 then -d else d }

  /** The shape keeps every dimension's absolute value: the one of the dimension and its opposite that is not
      negative. */
  ghost predicate IsAbsolute(shape: seq<int>, dims: seq<int>) {
    |shape| == |dims| && forall i :: 0 <= i < |shape| ==> shape[i] >= 0 && (shape[i] == dims[i] || shape[i] == -dims[i])
  }

  /** The shape kept for a tensor: unknown dimensions, which the server reports as -1, become 1. */
  function ShapeOf(m: Metadata): (shape: seq<nat>)
    ensures |shape| == |m.dims| && forall i :: 0 <= i < |shape| ==> shape[i] == Magnitude(m.dims[i])
    ensures IsAbsolute(shape, m.dims)
  {
    seq(|m.dims|, i requires 0 <= i < |m.dims| => Magnitude(m.dims[i]))
  }

  lemma OneAbsolute(shape: seq<int>, m: Metadata)
    requires IsAbsolute(shape, m.dims)
    ensures shape == ShapeOf(m)
  {
  }

  method ParseShape(m: Metadata) returns (shape: seq<nat>)
    ensures |shape| == |m.dims|
    ensures forall i :: 0 <= i < |shape| ==> shape[i] >= 0 && (shape[i] == m.dims[i] || shape[i] == -m.dims[i])
    ensures shape == ShapeOf(m)
  {
    shape := [];
    for i := 0 to |m.dims|
      invariant shape == ShapeOf(m)[..i]
    {
      shape := shape + [Magnitude(m.dims[i])];
    }
  }

  /** The number of elements of a shape. */
  function Volume(shape: seq<int>): int {
    if shape == [] then 1 else Volume(shape[..|shape| - 1]) * shape[|shape| - 1]
  }

  lemma {:induction false} VolumeOfFront(front: int, rest: seq<int>)
    ensures Volume([front] + rest) == front * Volume(rest)
  {
    var s := [front] + rest;
    if rest == [] {
      assert s[..0] == [];
    } else {
      assert s[..|s| - 1] == [front] + rest[..|rest| - 1];
      VolumeOfFront(front, rest[..|rest| - 1]);
    }
  }

  /** The elements of the empty shape, of one dimension, and of shapes joined: Volume is the product. */
  lemma {:induction false} VolumeIsProduct(a: seq<int>, b: seq<int>, d: int)
    ensures Volume([]) == 1 && Volume([d]) == d && Volume(a + b) == Volume(a) * Volume(b)
  {
    assert [d][..0] == [];
    if b == [] {
      assert a + b == a;
    } else {
      var front, e := b[..|b| - 1], b[|b| - 1];
      assert (a + b)[..|a + b| - 1] == a + front;
      VolumeIsProduct(a, front, d);
      assert Volume(a) * Volume(front) * e == Volume(a) * (Volume(front) * e);
    }
  }

  lemma {:induction false} VolumePositive(shape: seq<nat>)
    ensures Volume(shape) >= 0
    ensures Volume(shape) > 0 <==> forall i :: 0 <= i < |shape| ==> shape[i] > 0
  {
    if shape != [] {
      var front, d := shape[..|shape| - 1], shape[|shape| - 1];
      VolumePositive(front);
      assert (forall i :: 0 <= i < |shape| ==> shape[i] > 0)
        <==> (forall i :: 0 <= i < |front| ==> front[i] > 0) && d > 0;
      Factor(Volume(front), d);
    }
  }

  lemma Factor(a: int, b: nat)
    requires a >= 0
    ensures a * b >= 0 && (a * b > 0 <==> a > 0 && b > 0)
  {
  }

  /** num_elements: multiplied up in a 64-bit signed integer, returned as a size. */
  method NumElements(shape: seq<nat>) returns (n: nat)
    ensures n == ToSize(Volume(shape))
  {
    var elements := 1;
    for i := 0 to |shape|
      invariant ToSize(elements) == ToSize(Volume(shape[..i]))
    {
      assert shape[..i + 1][..i] == shape[..i];
      Multiplied(elements, Volume(shape[..i]), shape[i]);
      elements := ToLong(elements * shape[i]);
    }
    assert shape[..|shape|] == shape;
    n := ToSize(elements);
  }

  lemma Multiplied(a: int, b: int, d: nat)
    requires ToSize(a) == ToSize(b)
    ensures ToSize(ToLong(a * d)) == ToSize(b * d)
  {
    LongToSize(a * d);
    FactorReduced(a, d, TWO_64);
    FactorReduced(b, d, TWO_64);
  }

  /** The size of an item of a type; none for a type that is not supported. */
  function Itemsize(typeName: string): (n: nat)
    ensures n == 4 <==> typeName in {"FP32", "FLOAT32", "INT32"}
    ensures n == 2 <==> typeName == "INT16"
    ensures n == 1 <==> typeName == "INT8"
    ensures n == 0 || n == 1 || n == 2 || n == 4
  {
    if typeName == "FP32" then 4
    else if typeName == "FLOAT32" then 4
    else if typeName == "INT32" then 4
    else if typeName == "INT16" then 2
    else if typeName == "INT8" then 1
    else 0
  }

  // ---- Usable tensors ----

  /** The size of one batch in bytes, as it is stored. */
  function ByteSize(m: Metadata): nat {
    ToSize(ToSize(Volume(ShapeOf(m))) * Itemsize(m.typeName))
  }

  predicate Usable(m: Metadata) { ByteSize(m) != 0 }

  predicate Sound(m: Metadata) {
    Itemsize(m.typeName) > 0 && forall i :: 0 <= i < |m.dims| ==> m.dims[i] != 0
  }

  /** A tensor is usable exactly when its type is supported, it has no zero dimension and its size in bytes is no
      multiple of the range of a size. */
  lemma UsableExactly(m: Metadata)
    ensures Usable(m) <==> Sound(m) && Volume(ShapeOf(m)) * Itemsize(m.typeName) % TWO_64 != 0
    ensures Sound(m) && Volume(ShapeOf(m)) * Itemsize(m.typeName) < TWO_64 ==> Usable(m)
  {
    var v, k := Volume(ShapeOf(m)), Itemsize(m.typeName);
    FactorReduced(v, k, TWO_64);
    VolumePositive(ShapeOf(m));
    assert (forall i :: 0 <= i < |m.dims| ==> m.dims[i] != 0) <==>
           (forall i :: 0 <= i < |m.dims| ==> ShapeOf(m)[i] > 0);
    Factor(v, k);
    if v * k < TWO_64 {
      SizeKeeps(v * k);
    }
  }

  /** The stored size is that of all elements, as long as a size holds it, and what remains of it otherwise. */
  lemma BytesExact(m: Metadata, shape: seq<int>)
    requires IsAbsolute(shape, m.dims)
    ensures var bytes := Volume(shape) * Itemsize(m.typeName);
      ByteSize(m) % TWO_64 == bytes % TWO_64 && (bytes < TWO_64 ==> ByteSize(m) == bytes)
  {
    hide Volume;
    OneAbsolute(shape, m);
    var v, k := Volume(shape), Itemsize(m.typeName);
    FactorReduced(v, k, TWO_64);
    VolumePositive(ShapeOf(m));
    Factor(v, k);
    SizeKeeps(ToSize(v * k));
    if v * k < TWO_64 {
      SizeKeeps(v * k);
    }
  }

  /** What is stored for a usable tensor is a positive multiple of its item size. */
  lemma WholeItems(m: Metadata)
    requires Usable(m)
    ensures Itemsize(m.typeName) > 0 && ByteSize(m) > 0 && ByteSize(m) % Itemsize(m.typeName) == 0
  {
    hide ToSize; hide Volume;
    UsableExactly(m);
    WrappedProduct(ToSize(Volume(ShapeOf(m))), Itemsize(m.typeName));
  }

  /** A product that has wrapped is still a multiple of a factor that divides the range. */
  lemma WrappedProduct(v: nat, k: nat)
    requires k == 1 || k == 2 || k == 4
    ensures ToSize(v * k) % k == 0
  {
    Divided(v * k, TWO_64);
    var q, r := v * k / TWO_64, ToSize(v * k);
    assert r == v * k - q * TWO_64;
    if k == 4 {
      DivisionIs(r, 4, v - q * (TWO_64 / 4), 0);
    } else if k == 2 {
      DivisionIs(r, 2, v - q * (TWO_64 / 2), 0);
    }
  }

  /** How many tensors, from the first on, are usable one after the other. */
  function UsablePrefix(ms: seq<Metadata>): (k: nat)
    ensures k <= |ms| && (forall i :: 0 <= i < k ==> Usable(ms[i])) && (k < |ms| ==> !Usable(ms[k]))
    decreases |ms|
  {
    if ms == [] || !Usable(ms[0]) then 0 else 1 + UsablePrefix(ms[1..])
  }

  lemma {:induction false} UsablePrefixIs(ms: seq<Metadata>, k: nat)
    requires k <= |ms| && (forall i :: 0 <= i < k ==> Usable(ms[i])) && (k < |ms| ==> !Usable(ms[k]))
    ensures UsablePrefix(ms) == k
  {
    hide Usable;
    if k > 0 {
      UsablePrefixIs(ms[1..], k - 1);
    }
  }

  // ---- Batches ----

  /** Items of one batch, as the block divides them from sizes narrowed to int. */
  function ItemsPerBatch(m: Memory): int
    requires 0 < m.itemSize <= 4
  {
    Quotient(ToInt(m.byteSize), ToInt(m.itemSize))
  }

  /** Items of one batch, whatever the sizes: with the byte size read as an int, the truncating quotient. */
  lemma ItemsPerBatchExact(m: Memory, bytes: int)
    requires 0 < m.itemSize <= 4
    requires -INT_MAX - 1 <= bytes <= INT_MAX && (m.byteSize - bytes) % TWO_32 == 0
    ensures var items := ItemsPerBatch(m);
      && Size(items) * m.itemSize <= Size(bytes) < Size(items) * m.itemSize + m.itemSize
      && (items > 0 ==> bytes > 0) && (items < 0 ==> bytes < 0)
  {
    hide ToInt; hide Quotient;
    ConversionsExact(m.byteSize, bytes);
    DivisionIs(m.itemSize - m.itemSize, TWO_32, 0, 0);
    ConversionsExact(m.itemSize, m.itemSize);
    QuotientTruncates(bytes, m.itemSize);
  }

  /** The output multiple is the product of the absolute dimensions exactly when the bytes of one batch fit an
      int; beyond that the narrowing makes it smaller. */
  lemma OutputMultipleExact(m: Metadata, shape: seq<int>, key: string)
    requires Usable(m) && |shape| == |m.dims|
    requires forall i :: 0 <= i < |shape| ==> shape[i] >= 0 && (shape[i] == m.dims[i] || shape[i] == -m.dims[i])
    ensures Itemsize(m.typeName) > 0
    ensures var items, volume, k := ItemsPerBatch(Memory(Itemsize(m.typeName), ByteSize(m), key)),
                                    Volume(shape), Itemsize(m.typeName);
      && (items == volume <==> volume * k <= INT_MAX)
      && items <= volume
  {
    OneAbsolute(shape, m);
    var v, k := Volume(ShapeOf(m)), Itemsize(m.typeName);
    UsableExactly(m);
    VolumePositive(ShapeOf(m));
    Factor(v, k);
    FactorReduced(v, k, TWO_64);
    SizeToInt(v * k);
    DivisionIs(k, TWO_32, 0, k);
    NarrowedQuotient(v, k);
  }

  lemma NarrowedQuotient(v: nat, k: nat)
    requires 0 < k <= 4 && v > 0
    ensures Quotient(ToInt(v * k), k) == v <==> v * k <= INT_MAX
    ensures Quotient(ToInt(v * k), k) <= v
  {
    var n := v * k;
    if n <= INT_MAX {
      MultipleMod(v, k);
      DivisionIs(n, TWO_32, 0, n);
    } else {
      Divided(n, TWO_32);
      var a := ToInt(n);
      if a >= 0 {
        QuotientBelow(a, v, k);
      } else {
        assert Quotient(a, k) <= 0;
      }
    }
  }

  lemma QuotientBelow(a: nat, v: nat, k: nat)
    requires k > 0 && a < v * k
    ensures a / k < v
  {
    var q := a / k;
    Divided(a, k);
    assert a == q * k + a % k;
    Smaller(q, v, k);
  }

  lemma Smaller(a: int, b: int, k: nat)
    requires a * k < b * k
    ensures a < b
  {
  }

  /** Cutting `n` items into batches of `m` and putting them together again is lossless exactly for whole
      batches. */
  lemma BatchesExact(n: nat, m: nat)
    requires m > 0
    ensures n / m * m == n <==> n % m == 0
  {
    Divided(n, m);
  }

  /** What the executor grants a block with this output multiple is a positive number of whole batches. */
  lemma GrantIsWholeBatches(b: GraphExecutor.Buffer, m: Metadata, key: string)
    requires Usable(m) && Volume(ShapeOf(m)) * Itemsize(m.typeName) <= INT_MAX
    requires 0 <= b.Space() < TWO_64
    ensures Itemsize(m.typeName) > 0
    ensures var items := ItemsPerBatch(Memory(Itemsize(m.typeName), ByteSize(m), key));
      && items > 0 && ToUInt(items) != 0
      && match GraphExecutor.WriteGrant(b, true, items) {
           case None => true
           case Some(n) => n > 0 && n / items > 0 && n / items * items == n
         }
  {
    hide GraphExecutor.WriteGrant; hide ItemsPerBatch; hide Usable; hide ByteSize;
    OutputMultipleExact(m, ShapeOf(m), key);
    UsableExactly(m);
    VolumePositive(ShapeOf(m));
    var v, k := Volume(ShapeOf(m)), Itemsize(m.typeName);
    assert v <= v * k;
    DivisionIs(v, TWO_32, 0, v);
    ExecutorTheorems.OutputGrantIsOptimal(b, true, v);
    var g := GraphExecutor.WriteGrant(b, true, v);
    if g.Some? {
      BatchesExact(g.value, v);
      Divided(g.value, v);
    }
  }

  // ---- Tensors ----

  /** The shape of an input tensor for so many batches. */
  function Reshaped(shape: seq<int>, batch: nat): seq<int>
    requires shape != []
  {
    shape[0 := ToLong(batch)]
  }

  /** The shape behind a history of calls. */
  function ReshapedBy(shape: seq<int>, batches: seq<nat>): (r: seq<int>)
    requires shape != []
    ensures |r| == |shape|
  {
    if batches == [] then shape
    else Reshaped(ReshapedBy(shape, batches[..|batches| - 1]), batches[|batches| - 1])
  }

  /** Whatever calls came before, only the last one shows. */
  lemma {:induction false} OnlyTheLastCall(shape: seq<int>, batches: seq<nat>)
    requires shape != [] && batches != []
    ensures ReshapedBy(shape, batches) == [ToLong(batches[|batches| - 1])] + shape[1..]
  {
    if |batches| > 1 {
      OnlyTheLastCall(shape, batches[..|batches| - 1]);
    } else {
      assert batches[..0] == [];
    }
  }

  /** After any history of calls an input tensor holds the current batch size times its own elements per batch
      exactly when its leading dimension is 1 or -1, unless one of the two is nothing. */
  lemma TensorHoldsBatches(m: Metadata, batches: seq<nat>)
    requires m.dims != [] && batches != [] && batches[|batches| - 1] <= LONG_MAX
    ensures var batch, shape := batches[|batches| - 1], ShapeOf(m);
      (Volume(ReshapedBy(shape, batches)) == batch * Volume(shape))
      <==> m.dims[0] == 1 || m.dims[0] == -1 || batch == 0 || Volume(shape[1..]) == 0
  {
    hide Volume;
    var batch, shape := batches[|batches| - 1], ShapeOf(m);
    var rest := Volume(shape[1..]);
    OnlyTheLastCall(shape, batches);
    DivisionIs(batch, TWO_64, 0, batch);
    VolumeOfFront(batch, shape[1..]);
    VolumeOfFront(shape[0], shape[1..]);
    assert shape == [shape[0]] + shape[1..];
    VolumePositive(shape[1..]);
    OneOrNothing(batch, shape[0], rest);
  }

  lemma OneOrNothing(a: nat, d: nat, r: nat)
    ensures a * r == a * (d * r) <==> d == 1 || a == 0 || r == 0
  {
    assert a * (d * r) == d * (a * r);
    if a > 0 && r > 0 {
      Factor(a, r);
      if d == 0 {
      } else if d > 1 {
        assert d * (a * r) >= 2 * (a * r);
      }
    }
  }

  /** For whole batches the tensor of an input with leading dimension 1 or -1 takes as many elements as the block
      consumes items exactly when a batch of the input has as many elements as a batch of the output. */
  lemma InputTensorMatches(i: Metadata, o: Metadata, n: nat)
    requires i.dims != [] && (i.dims[0] == 1 || i.dims[0] == -1)
    requires Volume(ShapeOf(o)) > 0 && n % Volume(ShapeOf(o)) == 0 && n <= LONG_MAX
    ensures var batch := n / Volume(ShapeOf(o));
      Volume(Reshaped(ShapeOf(i), batch)) == n <==> n == 0 || Volume(ShapeOf(i)) == Volume(ShapeOf(o))
  {
    hide Volume; hide ShapeOf;
    var v, w := Volume(ShapeOf(o)), Volume(ShapeOf(i));
    var batch := n / v;
    BatchesExact(n, v);
    Factor(batch, v);
    assert batch <= n by {
      AtLeast(batch, v);
    }
    TensorOfBatch(i, batch);
    if batch > 0 {
      SameFactor(batch, w, v);
    }
  }

  lemma AtLeast(a: nat, b: nat)
    requires b > 0
    ensures a * b >= a
  {
  }

  lemma TensorOfBatch(m: Metadata, batch: nat)
    requires m.dims != [] && (m.dims[0] == 1 || m.dims[0] == -1) && batch <= LONG_MAX
    ensures Volume(Reshaped(ShapeOf(m), batch)) == batch * Volume(ShapeOf(m))
  {
    var shape := ShapeOf(m);
    assert shape == [1] + shape[1..];
    assert Reshaped(shape, batch) == [ToLong(batch)] + shape[1..];
    DivisionIs(batch, TWO_64, 0, batch);
    VolumeOfFront(batch, shape[1..]);
    VolumeOfFront(1, shape[1..]);
  }

  lemma SameFactor(a: int, b: int, c: int)
    requires a > 0
    ensures a * b == a * c <==> b == c
  {
    if b > c {
      assert a * b >= a * (c + 1);
    } else if b < c {
      assert a * c >= a * (b + 1);
    }
  }
}
