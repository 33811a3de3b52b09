/**
 * Dataset partitioning: how many objects one mapper invocation may take, and
 * the split of the listed object keys into batches of that size.
 */
module LambdaUtils {

  /** An object of the input bucket, as listed: its key and its size in bytes. */
  datatype StoredObject = StoredObject(key: string, size: nat)

  function Keys(objects: seq<StoredObject>): (keys: seq<string>)
    ensures |keys| == |objects|
    ensures forall i :: 0 <= i < |objects| ==> keys[i] == objects[i].key
  {
    seq(|objects|, i requires 0 <= i < |objects| => objects[i].key)
  }

  /** The size of the dataset: the exact sum of the object sizes. */
  function TotalSize(objects: seq<StoredObject>): nat {
    if objects == [] then 0 else TotalSize(objects[..|objects| - 1]) + objects[|objects| - 1].size
  }

  const BytesPerMB: nat := 1000 * 1000

  /** 60% of the lambda memory in bytes, scaled by ten and by the object count: 6 * mem * 10^6 * count. */
  function UsableMemoryScaled(count: nat, lambdaMemory: int): int {
    6 * lambdaMemory * BytesPerMB * count
  }

  /** The dataset size scaled by ten: the denominator that matches `UsableMemoryScaled`. */
  function TotalSizeScaled(totalSize: nat): nat {
    10 * totalSize
  }

  /**
   * The exact-arithmetic value of `int(0.6 * float64(lambdaMemory*1000*1000) / avgObjectSize)`
   * with `avgObjectSize = totalSize / count`: the quotient of `UsableMemoryScaled`
   * by `TotalSizeScaled`, truncated toward zero as Go's float-to-int conversion
   * does. There is no clamp to a minimum of 1.
   */
  function IdealBatchSize(totalSize: nat, count: nat, lambdaMemory: int): (r: int)
    requires totalSize > 0
    ensures var u, d := UsableMemoryScaled(count, lambdaMemory), TotalSizeScaled(totalSize);
      if u >= 0 then 0 <= r && r * d <= u < (r + 1) * d
      else r <= 0 && -r * d <= -u < (-r + 1) * d
  {
    var u, d := UsableMemoryScaled(count, lambdaMemory), TotalSizeScaled(totalSize);
    if u >= 0 then
      DivBounds(u, d);
      u / d
    else
      DivBounds(-u, d);
      -((-u) / d)
  }

  /** Euclidean division of a natural number brackets it between two multiples of the divisor. */
  lemma DivBounds(u: int, d: int)
    requires u >= 0 && d > 0
    ensures 0 <= u / d && (u / d) * d <= u < (u / d + 1) * d
  {
    var q := u / d;
    assert u == q * d + u % d;
    assert (q + 1) * d == q * d + d;
  }

  /**
   * The batch size `ComputeBatchSize` returns. For a dataset of positive size it
   * is `IdealBatchSize`. Otherwise the average object size is NaN (no objects)
   * or 0 (objects of size 0), so the float quotient is NaN or an infinity, and
   * Go leaves the value of converting it to `int` to the implementation. That
   * value is `nonFiniteQuotient`.
   */
  function BatchSize(totalSize: nat, count: nat, lambdaMemory: int, nonFiniteQuotient: int): int {
    if totalSize > 0 then IdealBatchSize(totalSize, count, lambdaMemory) else nonFiniteQuotient
  }

  /**
   * `ComputeBatchSize`: sums the object sizes in a loop, then divides the usable
   * 60% of the lambda memory by the average object size.
   */
  method ComputeBatchSize(allObjects: seq<StoredObject>, lambdaMemory: int, nonFiniteQuotient: int)
    returns (objectsPerBatch: int)
    ensures TotalSize(allObjects) > 0 ==>
      objectsPerBatch == IdealBatchSize(TotalSize(allObjects), |allObjects|, lambdaMemory)
    ensures TotalSize(allObjects) == 0 ==> objectsPerBatch == nonFiniteQuotient
    ensures objectsPerBatch == BatchSize(TotalSize(allObjects), |allObjects|, lambdaMemory, nonFiniteQuotient)
  {
    var totalSizeOfDataset := 0;
    for i := 0 to |allObjects|
      invariant totalSizeOfDataset == TotalSize(allObjects[..i])
    {
      assert allObjects[..i + 1][..i] == allObjects[..i];
      totalSizeOfDataset := totalSizeOfDataset + allObjects[i].size;
    }
    assert allObjects[..|allObjects|] == allObjects;
    if totalSizeOfDataset == 0 {
      objectsPerBatch := nonFiniteQuotient;
    } else {
      var maxMemoryForDataset := UsableMemoryScaled(|allObjects|, lambdaMemory);
      var d := TotalSizeScaled(totalSizeOfDataset);
      objectsPerBatch := if maxMemoryForDataset >= 0 then maxMemoryForDataset / d
                         else -((-maxMemoryForDataset) / d);
    }
  }

  /** The concatenation of the batches, in order. */
  function Flatten(batches: seq<seq<string>>): seq<string> {
    if batches == [] then [] else batches[0] + Flatten(batches[1..])
  }

  /**
   * `batches` is a partition of `keys` into consecutive batches as `BatchCreator`
   * promises it: concatenated they give back `keys`, none is empty, and when
   * `objectsPerBatch` is positive every batch but the last holds exactly
   * `objectsPerBatch` keys and the last at most that many; when it is not
   * positive there is at most one batch.
   */
  ghost predicate IsBatching(batches: seq<seq<string>>, keys: seq<string>, objectsPerBatch: int) {
    && Flatten(batches) == keys
    && (forall i :: 0 <= i < |batches| ==> batches[i] != [])
    && (objectsPerBatch >= 1 ==>
          (forall i :: 0 <= i < |batches| - 1 ==> |batches[i]| == objectsPerBatch)
          && (forall i :: 0 <= i < |batches| ==> |batches[i]| <= objectsPerBatch))
    && (objectsPerBatch <= 0 ==> |batches| <= 1)
  }

  /** ceil(n / k) for a positive k; for k <= 0 a non-empty list is one batch. */
  function BatchCount(n: nat, objectsPerBatch: int): nat {
    if objectsPerBatch >= 1 then (n + objectsPerBatch - 1) / objectsPerBatch
    else if n > 0 then 1 else 0
  }

  /**
   * The state of `BatchCreator` after it has walked `prefix`: the sealed
   * `batches` followed by the open `batch` concatenate to `prefix`; sealed
   * batches are non-empty and, for a positive `objectsPerBatch`, full, while the
   * open one is shorter; for a non-positive one nothing is ever sealed.
   */
  ghost predicate InProgress(batches: seq<seq<string>>, batch: seq<string>, prefix: seq<string>, objectsPerBatch: int) {
    && Flatten(batches) + batch == prefix
    && (forall j :: 0 <= j < |batches| ==> batches[j] != [])
    && (objectsPerBatch >= 1 ==>
          && (forall j :: 0 <= j < |batches| ==> |batches[j]| == objectsPerBatch)
          && |batch| < objectsPerBatch
          && |prefix| == |batches| * objectsPerBatch + |batch|)
    && (objectsPerBatch <= 0 ==> batches == [] && batch == prefix)
  }

  /**
   * `BatchCreator`: walks the objects in order, appending each key to the current
   * batch and sealing the batch when its length equals `objectsPerBatch`; a
   * non-empty trailing batch is kept.
   */
  method BatchCreator(allObjects: seq<StoredObject>, objectsPerBatch: int) returns (batches: seq<seq<string>>)
    ensures IsBatching(batches, Keys(allObjects), objectsPerBatch)
    ensures |batches| == BatchCount(|allObjects|, objectsPerBatch)
    ensures objectsPerBatch <= 0 && |allObjects| > 0 ==> batches == [Keys(allObjects)]
    ensures allObjects == [] ==> batches == []
  {
    batches := [];
    var batch: seq<string> := [];
    ghost var keys := Keys(allObjects);
    for i := 0 to |allObjects|
      invariant InProgress(batches, batch, keys[..i], objectsPerBatch)
    {
      assert keys[..i + 1] == keys[..i] + [allObjects[i].key];
      AppendKey(batches, batch, keys[..i], allObjects[i].key, objectsPerBatch);
      batch := batch + [allObjects[i].key];
      if |batch| == objectsPerBatch {
        batches := batches + [batch];
        batch := [];
      }
    }
    assert keys[..|allObjects|] == keys;
    SealLast(batches, batch, keys, objectsPerBatch);
    if |batch| > 0 {
      batches := batches + [batch];
    }
  }

  /** One step of `BatchCreator`: appending a key, and sealing the batch when it becomes full, keeps `InProgress`. */
  lemma AppendKey(batches: seq<seq<string>>, batch: seq<string>, prefix: seq<string>, key: string, objectsPerBatch: int)
    requires InProgress(batches, batch, prefix, objectsPerBatch)
    ensures var open := batch + [key];
      if |open| == objectsPerBatch then InProgress(batches + [open], [], prefix + [key], objectsPerBatch)
      else InProgress(batches, open, prefix + [key], objectsPerBatch)
  {
    var open := batch + [key];
    if |open| == objectsPerBatch {
      FlattenSnoc(batches, open);
      assert (|batches| + 1) * objectsPerBatch == |batches| * objectsPerBatch + objectsPerBatch;
    }
  }

  /** Once every key is walked, keeping the open batch when it is non-empty yields a batching of the expected count. */
  lemma SealLast(batches: seq<seq<string>>, batch: seq<string>, keys: seq<string>, objectsPerBatch: int)
    requires InProgress(batches, batch, keys, objectsPerBatch)
    ensures var result := if |batch| > 0 then batches + [batch] else batches;
      && IsBatching(result, keys, objectsPerBatch)
      && |result| == BatchCount(|keys|, objectsPerBatch)
      && (objectsPerBatch <= 0 && |keys| > 0 ==> result == [keys])
      && (keys == [] ==> result == [])
  {
    if objectsPerBatch >= 1 {
      CeilDivOfRemainder(|batches|, |batch|, objectsPerBatch);
    }
    if |batch| > 0 {
      FlattenSnoc(batches, batch);
    } else {
      assert Flatten(batches) == keys;
    }
  }

  lemma {:induction false} FlattenSnoc(batches: seq<seq<string>>, batch: seq<string>)
    ensures Flatten(batches + [batch]) == Flatten(batches) + batch
  {
    if batches != [] {
      assert (batches + [batch])[1..] == batches[1..] + [batch];
      FlattenSnoc(batches[1..], batch);
    }
  }

  /** With q full batches and a remainder r < k, ceil((q*k + r) / k) counts the partial batch iff r > 0. */
  lemma CeilDivOfRemainder(q: nat, r: nat, k: int)
    requires k >= 1 && r < k
    ensures (q * k + r + k - 1) / k == q + (if r > 0 then 1 else 0)
  {
    var m := q + (if r > 0 then 1 else 0);
    var x := q * k + r + k - 1;
    assert m * k <= x < (m + 1) * k;
    DivUnique(x, k, m);
  }

  lemma DivUnique(x: int, k: int, m: int)
    requires k >= 1 && m * k <= x < (m + 1) * k
    ensures x / k == m
  {
    var q := x / k;
    assert x == q * k + x % k;
    if q < m {
      MulMonotone(q + 1, m, k);
    } else if q > m {
      MulMonotone(m + 1, q, k);
    }
  }

  lemma MulMonotone(a: int, b: int, k: int)
    requires a <= b && k >= 0
    ensures a * k <= b * k
  {
    assert b * k - a * k == (b - a) * k;
  }

  /**
   * Over exact rationals, `IdealBatchSize` is the integer part of the usable
   * memory (60% of `lambdaMemory` megabytes) divided by the average object size.
   */
  lemma IdealBatchSizeIsQuotientOfAverage(totalSize: nat, count: nat, lambdaMemory: nat)
    requires totalSize > 0 && count > 0
    ensures var average := totalSize as real / count as real;
            var usable := 0.6 * (lambdaMemory * BytesPerMB) as real;
            var r := IdealBatchSize(totalSize, count, lambdaMemory) as real;
            r <= usable / average < r + 1.0
  {
    var t, c, m := totalSize as real, count as real, (lambdaMemory * BytesPerMB) as real;
    var u := UsableMemoryScaled(count, lambdaMemory);
    var d := TotalSizeScaled(totalSize);
    var r := IdealBatchSize(totalSize, count, lambdaMemory);
    assert u as real == 6.0 * m * c;
    assert d as real == 10.0 * t;
    QuotientOfAverage(m, c, t);
    assert (r * d) as real == r as real * d as real;
    assert ((r + 1) * d) as real == (r as real + 1.0) * d as real;
    BetweenMultiples(r as real, u as real, d as real);
  }

  lemma QuotientOfAverage(m: real, c: real, t: real)
    requires c > 0.0 && t > 0.0
    ensures 0.6 * m / (t / c) == 6.0 * m * c / (10.0 * t)
  {
  }

  lemma BetweenMultiples(r: real, u: real, d: real)
    requires d > 0.0 && r * d <= u < (r + 1.0) * d
    ensures r <= u / d < r + 1.0
  {
    var q := u / d;
    assert q * d == u;
    var e := q - (r + 1.0);
    assert e * d == q * d - (r + 1.0) * d;
    assert e * d < 0.0;
  }

  /**
   * No clamp: for a non-negative memory the batch size is 0 exactly when the
   * average object size exceeds the usable memory, that is when
   * `totalSize / count > 0.6 * lambdaMemory * 10^6`.
   */
  lemma IdealBatchSizeZeroWhenAverageTooLarge(totalSize: nat, count: nat, lambdaMemory: nat)
    requires totalSize > 0
    ensures IdealBatchSize(totalSize, count, lambdaMemory) == 0
        <==> TotalSizeScaled(totalSize) > UsableMemoryScaled(count, lambdaMemory)
  {
    var r := IdealBatchSize(totalSize, count, lambdaMemory);
    var u, d := UsableMemoryScaled(count, lambdaMemory), TotalSizeScaled(totalSize);
    assert u >= 0;
    if r >= 1 {
      MulMonotone(1, r, d);
    }
  }

  /** 10 objects of 10^6 bytes and 1536 MB of lambda memory give 921 objects per batch, hence one batch. */
  lemma IdealBatchSizeExample()
    ensures IdealBatchSize(10 * 1000 * 1000, 10, 1536) == 921
    ensures BatchCount(10, 921) == 1
  {
  }

  /** The keys of the first batch: a prefix of the keys, of length `objectsPerBatch` or all of them. */
  lemma {:induction false} FirstBatch(batches: seq<seq<string>>, keys: seq<string>, objectsPerBatch: int)
    requires objectsPerBatch >= 1 && batches != []
    requires IsBatching(batches, keys, objectsPerBatch)
    ensures |batches[0]| == if |keys| < objectsPerBatch then |keys| else objectsPerBatch
    ensures batches[0] == keys[..|batches[0]|]
    ensures IsBatching(batches[1..], keys[|batches[0]|..], objectsPerBatch)
  {
    var rest := batches[1..];
    assert keys == batches[0] + Flatten(rest);
    if rest != [] {
      assert rest[0] == batches[1] && rest[0] != [];
      assert Flatten(rest) == rest[0] + Flatten(rest[1..]);
      assert |batches[0]| == objectsPerBatch;
    } else {
      assert Flatten(rest) == [];
    }
    assert keys[|batches[0]|..] == Flatten(rest);
    forall i | 0 <= i < |rest| ensures rest[i] != [] && |rest[i]| <= objectsPerBatch {
      assert rest[i] == batches[i + 1];
    }
    forall i | 0 <= i < |rest| - 1 ensures |rest[i]| == objectsPerBatch {
      assert rest[i] == batches[i + 1];
    }
  }

  /** The properties `BatchCreator` promises determine its result: a batching of given keys is unique. */
  lemma {:induction false} BatchingUnique(a: seq<seq<string>>, b: seq<seq<string>>, keys: seq<string>, objectsPerBatch: int)
    requires IsBatching(a, keys, objectsPerBatch) && IsBatching(b, keys, objectsPerBatch)
    ensures a == b
    decreases |keys|
  {
    if a == [] || b == [] {
      NonEmptyFlatten(a);
      NonEmptyFlatten(b);
    } else if objectsPerBatch <= 0 {
      assert a == [a[0]] && b == [b[0]];
      assert Flatten(a) == a[0] + Flatten([]) && Flatten(b) == b[0] + Flatten([]);
      assert a[0] == keys && b[0] == keys;
    } else {
      FirstBatch(a, keys, objectsPerBatch);
      FirstBatch(b, keys, objectsPerBatch);
      var n := |a[0]|;
      assert n > 0;
      BatchingUnique(a[1..], b[1..], keys[n..], objectsPerBatch);
      assert a == [a[0]] + a[1..] && b == [b[0]] + b[1..];
    }
  }

  /** A sequence of non-empty batches flattens to the empty sequence only when it is empty. */
  lemma NonEmptyFlatten(batches: seq<seq<string>>)
    requires forall i :: 0 <= i < |batches| ==> batches[i] != []
    ensures (Flatten(batches) == []) == (batches == [])
  {
    if batches != [] {
      assert |Flatten(batches)| >= |batches[0]| > 0;
    }
  }

  /** Five keys at two per batch: [[o1, o2], [o3, o4], [o5]], and no other batching. */
  lemma BatchingExample(batches: seq<seq<string>>)
    requires IsBatching(batches, ["o1", "o2", "o3", "o4", "o5"], 2)
    ensures batches == [["o1", "o2"], ["o3", "o4"], ["o5"]]
  {
    var expected := [["o1", "o2"], ["o3", "o4"], ["o5"]];
    assert Flatten(expected) == ["o1", "o2"] + (["o3", "o4"] + (["o5"] + Flatten([]))) by {
      assert expected[1..] == [["o3", "o4"], ["o5"]];
      assert expected[1..][1..] == [["o5"]];
      assert expected[1..][1..][1..] == [];
    }
    BatchingUnique(batches, expected, ["o1", "o2", "o3", "o4", "o5"], 2);
  }
}
