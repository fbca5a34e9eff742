/**
 Batched inference against inference on each track alone (app/cli.py:1614-1642,
 app/head_pack.py:147-171, app/embedder.py:405-424).

 A predictor is any function on batches that works row by row on the batch
 sizes it is called with; padding rows are predicted and dropped.
 */
module BatchedInference {
  import opened Wrappers

  datatype Error = NotPositive | WrongBatchSize | Empty

  function Map<P, R>(f: P -> R, s: seq<P>): seq<R> {
    seq(|s|, i requires 0 <= i < |s| => f(s[i]))
  }

  /** The predictor maps one row function over every batch of this size. */
  ghost predicate RowWise<P(!new), R>(run: seq<P> -> seq<R>, f: P -> R, size: int) {
    forall batch :: |batch| == size ==> run(batch) == Map(f, batch)
  }

  /** `np.concatenate`. */
  function Concat<T>(items: seq<seq<T>>): seq<T> {
    if items == [] then [] else Concat(items[..|items| - 1]) + items[|items| - 1]
  }

  lemma {:induction false} ConcatStep<T>(items: seq<seq<T>>, item: seq<T>)
    ensures Concat(items + [item]) == Concat(items) + item
  {
    assert (items + [item])[..|items|] == items;
  }

  /** Where an item lies in the concatenation. */
  lemma {:induction false} ConcatAt<T>(items: seq<seq<T>>, i: nat)
    requires i < |items|
    ensures |Concat(items[..i])| + |items[i]| == |Concat(items[..i + 1])| <= |Concat(items)|
    ensures Concat(items)[|Concat(items[..i])|..|Concat(items[..i + 1])|] == items[i]
  {
    assert items[..i + 1] == items[..i] + [items[i]];
    ConcatStep(items[..i], items[i]);
    ConcatPrefix(items, i + 1);
  }

  lemma {:induction false} ConcatPrefix<T>(items: seq<seq<T>>, i: nat)
    requires i <= |items|
    ensures |Concat(items[..i])| <= |Concat(items)| && Concat(items)[..|Concat(items[..i])|] == Concat(items[..i])
    decreases |items| - i
  {
    if i == |items| {
      assert items[..i] == items;
    } else {
      ConcatPrefix(items, i + 1);
      assert items[..i + 1] == items[..i] + [items[i]];
      ConcatStep(items[..i], items[i]);
      assert Concat(items)[..|Concat(items[..i])|] == Concat(items)[..|Concat(items[..i + 1])|][..|Concat(items[..i])|];
    }
  }

  lemma {:induction false} MapSlice<P, R>(f: P -> R, s: seq<P>, a: nat, b: nat)
    requires a <= b <= |s|
    ensures Map(f, s)[a..b] == Map(f, s[a..b])
  {
  }

  lemma {:induction false} MapJoin<P, R>(f: P -> R, a: seq<P>, b: seq<P>)
    ensures Map(f, a + b) == Map(f, a) + Map(f, b)
  {
  }

  /** The rows of an item in the prediction of the concatenation are the rows predicted for it alone. */
  lemma {:induction false} SliceIsAlone<P, R>(f: P -> R, items: seq<seq<P>>, i: nat)
    requires i < |items|
    ensures |Concat(items[..i])| <= |Concat(items[..i + 1])| <= |Concat(items)|
    ensures Map(f, Concat(items))[|Concat(items[..i])|..|Concat(items[..i + 1])|] == Map(f, items[i])
  {
    ConcatAt(items, i);
    MapSlice(f, Concat(items), |Concat(items[..i])|, |Concat(items[..i + 1])|);
  }

  function Zeros<P>(zero: P, n: nat): seq<P> {
    seq(n, _ => zero)
  }

  // ------------------------------------------------------ one track, short last batch

  /** One batch of `predict_patches`: pad, run, drop the padding rows. */
  method PredictPadded<P(!new), R>(run: seq<P> -> seq<R>, ghost f: P -> R, zero: P, batch: seq<P>, size: nat)
    returns (rows: seq<R>)
    requires |batch| <= size && RowWise(run, f, size)
    ensures rows == Map(f, batch)
  {
    var padded := batch + Zeros(zero, size - |batch|);
    MapSlice(f, padded, 0, |batch|);
    assert padded[..|batch|] == batch;
    rows := run(padded)[..|batch|];
  }

  /** `predict_patches`. */
  method PredictPatches<P(!new), R>(run: seq<P> -> seq<R>, ghost f: P -> R, zero: P, patches: seq<P>, size: int)
    returns (r: Result<seq<R>, Error>)
    requires RowWise(run, f, size)
    ensures r == if patches == [] then Ok([]) else if size <= 0 then Err(NotPositive) else Ok(Map(f, patches))
  {
    if patches == [] {
      return Ok([]);
    }
    if size <= 0 {
      return Err(NotPositive);
    }
    var outputs: seq<R> := [];
    var start := 0;
    while start < |patches|
      invariant 0 <= start
      invariant outputs == Map(f, patches[..if start < |patches| then start else |patches|])
      decreases |patches| - start
    {
      var stop := if start + size < |patches| then start + size else |patches|;
      var rows := PredictPadded(run, f, zero, patches[start..stop], size);
      MapJoin(f, patches[..start], patches[start..stop]);
      assert patches[..stop] == patches[..start] + patches[start..stop];
      outputs := outputs + rows;
      start := start + size;
    }
    assert patches[..|patches|] == patches;
    return Ok(outputs);
  }

  // ------------------------------------------------------------ several tracks

  /** `predict_patches_unpadded`: the model takes batches of exactly its own size. */
  method PredictUnpadded<P(!new), R>(run: seq<P> -> seq<R>, ghost f: P -> R, batch: seq<P>, size: int)
    returns (r: Result<seq<R>, Error>)
    requires RowWise(run, f, size)
    ensures r == if |batch| != size then Err(WrongBatchSize) else Ok(Map(f, batch))
  {
    r := if |batch| != size then Err(WrongBatchSize) else Ok(run(batch));
  }

  /** Padding to a multiple of the batch size. */
  function Padding(n: nat, size: nat): (padded: nat)
    requires size > 0
    ensures padded < size && exists batches: nat :: n + padded == batches * size
  {
    if n % size == 0 then
      assert n == (n / size) * size;
      0
    else
      assert n + (size - n % size) == (n / size + 1) * size;
      size - n % size
  }

  /** The chunk loop over rows that are a whole number of batches. */
  method PredictChunks<P(!new), R>(run: seq<P> -> seq<R>, ghost f: P -> R, rows: seq<P>, size: nat, modelSize: int,
                                   ghost batches: nat)
    returns (r: Result<seq<R>, Error>)
    requires size > 0 && |rows| == batches * size && rows != [] && RowWise(run, f, modelSize)
    ensures r == if size != modelSize then Err(WrongBatchSize) else Ok(Map(f, rows))
  {
    var outputs: seq<R> := [];
    var start := 0;
    ghost var left := batches;
    while start < |rows|
      invariant 0 <= start <= |rows| && |rows| - start == left * size
      invariant left < batches ==> size == modelSize
      invariant left <= batches && outputs == Map(f, rows[..start])
      decreases |rows| - start
    {
      OneLess(left, size);
      var one := PredictUnpadded(run, f, rows[start..start + size], modelSize);
      if one.Err? {
        return Err(WrongBatchSize);
      }
      MapJoin(f, rows[..start], rows[start..start + size]);
      assert rows[..start + size] == rows[..start] + rows[start..start + size];
      outputs := outputs + one.value;
      start, left := start + size, left - 1;
    }
    assert rows[..|rows|] == rows;
    r := Ok(outputs);
  }

  lemma {:induction false} OneLess(n: nat, size: nat)
    requires n * size > 0
    ensures n > 0 && n * size == (n - 1) * size + size && (n - 1) * size >= 0
  {
  }

  /** The slicing loop: rows by running offset. */
  method SplitRows<P, R>(ghost f: P -> R, items: seq<seq<P>>, embeddings: seq<R>) returns (outputs: seq<seq<R>>)
    requires embeddings == Map(f, Concat(items))
    ensures |outputs| == |items| && forall i :: 0 <= i < |items| ==> outputs[i] == Map(f, items[i])
  {
    outputs := [];
    var offset := 0;
    assert items[..0] == [];
    for i := 0 to |items|
      invariant offset == |Concat(items[..i])|
      invariant |outputs| == i && forall j :: 0 <= j < i ==> outputs[j] == Map(f, items[j])
    {
      SliceIsAlone(f, items, i);
      ConcatAt(items, i);
      var count := |items[i]|;
      outputs := outputs + [embeddings[offset..offset + count]];
      offset := offset + count;
    }
  }

  /** The GPU batch of `process_ready_embedding_batches`: each track gets the rows it would get alone. */
  method InferTogether<P(!new), R>(run: seq<P> -> seq<R>, ghost f: P -> R, zero: P, items: seq<seq<P>>, size: int,
                                   modelSize: int)
    returns (r: Result<seq<seq<R>>, Error>)
    requires RowWise(run, f, modelSize)
    ensures r.Ok? <==> size > 0 && size == modelSize && Concat(items) != []
    ensures r.Ok? ==> |r.value| == |items| && forall i :: 0 <= i < |items| ==> r.value[i] == Map(f, items[i])
  {
    var patches := Concat(items);
    if size <= 0 {
      return Err(NotPositive);
    }
    if patches == [] {
      return Err(Empty);
    }
    var actual := |patches|;
    var padded := Padding(actual, size);
    var all := patches + Zeros(zero, padded);
    ghost var batches: nat :| actual + padded == batches * size;
    var predicted := PredictChunks(run, f, all, size, modelSize, batches);
    if predicted.Err? {
      return Err(predicted.error);
    }
    MapSlice(f, all, 0, actual);
    assert all[..actual] == patches;
    var outputs := SplitRows(f, items, predicted.value[..actual]);
    r := Ok(outputs);
  }

  // --------------------------------------------------------------------- heads

  /** A head: its predictor, and what it makes of a track's prediction rows. */
  datatype Head<!P, !R, !O> = Head(run: seq<P> -> seq<R>, output: seq<R> -> O)

  ghost predicate HeadsRowWise<P(!new), R, O>(heads: seq<Head<P, R, O>>, rows: seq<P -> R>) {
    |rows| == |heads| && forall h, n {:trigger RowWise(heads[h].run, rows[h], n)} :: 0 <= h < |heads| ==>
        RowWise(heads[h].run, rows[h], n)
  }

  /** What the first `n` heads say of a track. */
  function Outputs<P, R, O>(heads: seq<Head<P, R, O>>, n: nat, patches: seq<P>): seq<O>
    requires n <= |heads|
  {
    seq(n, h requires 0 <= h < n => heads[h].output(heads[h].run(patches)))
  }

  /** `analyze_patch_embeddings`. */
  method AnalyzeAlone<P, R, O>(heads: seq<Head<P, R, O>>, patches: seq<P>) returns (outputs: seq<O>)
    ensures outputs == Outputs(heads, |heads|, patches)
  {
    outputs := [];
    for h := 0 to |heads|
      invariant outputs == Outputs(heads, h, patches)
    {
      outputs := outputs + [heads[h].output(heads[h].run(patches))];
    }
  }

  lemma {:induction false} OutputsStep<P, R, O>(heads: seq<Head<P, R, O>>, h: nat, patches: seq<P>)
    requires h < |heads|
    ensures Outputs(heads, h + 1, patches) == Outputs(heads, h, patches) + [heads[h].output(heads[h].run(patches))]
  {
  }

  /** One head over the concatenation: each track's list grows by that head's output for the track alone. */
  method RunHead<P(!new), R, O>(heads: seq<Head<P, R, O>>, ghost rows: seq<P -> R>, h: nat, items: seq<seq<P>>,
                                before: seq<seq<O>>)
    returns (after: seq<seq<O>>)
    requires HeadsRowWise(heads, rows) && h < |heads|
    requires |before| == |items| && forall i :: 0 <= i < |items| ==> before[i] == Outputs(heads, h, items[i])
    ensures |after| == |items| && forall i :: 0 <= i < |items| ==> after[i] == Outputs(heads, h + 1, items[i])
  {
    var combined := Concat(items);
    var head := heads[h];
    assert RowWise(head.run, rows[h], |combined|);
    var predictions := head.run(combined);
    var offset := 0;
    after := before;
    assert items[..0] == [];
    for i := 0 to |items|
      invariant offset == |Concat(items[..i])| && |after| == |items|
      invariant forall j :: 0 <= j < |items| ==> after[j] == Outputs(heads, if j < i then h + 1 else h, items[j])
    {
      SliceIsAlone(rows[h], items, i);
      ConcatAt(items, i);
      assert RowWise(head.run, rows[h], |items[i]|);
      var count := |items[i]|;
      var track := predictions[offset..offset + count];
      assert track == head.run(items[i]);
      OutputsStep(heads, h, items[i]);
      after := after[i := after[i] + [head.output(track)]];
      offset := offset + count;
    }
  }

  /** `analyze_patch_embedding_batch`: the outputs each track would get alone, in the order of the heads. */
  method AnalyzeTogether<P(!new), R, O>(heads: seq<Head<P, R, O>>, ghost rows: seq<P -> R>, items: seq<seq<P>>)
    returns (r: Result<seq<seq<O>>, Error>)
    requires HeadsRowWise(heads, rows)
    ensures r.Err? <==> exists i :: 0 <= i < |items| && |items[i]| == 0
    ensures r.Ok? ==> |r.value| == |items| && forall i :: 0 <= i < |items| ==>
            r.value[i] == Outputs(heads, |heads|, items[i])
  {
    if items == [] {
      return Ok([]);
    }
    if exists i :: 0 <= i < |items| && |items[i]| == 0 {
      return Err(Empty);
    }
    var outputs: seq<seq<O>> := seq(|items|, _ => []);
    for h := 0 to |heads|
      invariant |outputs| == |items| && forall i :: 0 <= i < |items| ==> outputs[i] == Outputs(heads, h, items[i])
    {
      outputs := RunHead(heads, rows, h, items, outputs);
    }
    r := Ok(outputs);
  }
}
