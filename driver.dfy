/**
 * The job driver, run sequentially: the three function names derived from the
 * job id, the job descriptor, the job data that records the mapper count, one
 * invocation payload per batch, the rule that an existing permission is not an
 * error, and the fold of the mapper results into job totals. Results arrive
 * from a channel in an order nobody controls; here they are an arbitrary
 * sequence.
 */
module Driver {
  import opened Wrappers
  import opened GoInt
  import StrConv
  import LambdaUtils

  // ---------------------------------------------------------------------------
  // Function names

  const LambdaPrefix: string := "BL"

  function MapperLambdaName(jobID: string): string {
    LambdaPrefix + "-mapper-" + jobID
  }

  function ReducerLambdaName(jobID: string): string {
    LambdaPrefix + "-reducer-" + jobID
  }

  function ReducerCoordinatorLambdaName(jobID: string): string {
    LambdaPrefix + "-reducerCoordinator-" + jobID
  }

  /** Within one job the three functions never share a name. */
  lemma LambdaNamesDistinct(jobID: string)
    ensures MapperLambdaName(jobID) != ReducerLambdaName(jobID)
    ensures MapperLambdaName(jobID) != ReducerCoordinatorLambdaName(jobID)
    ensures ReducerLambdaName(jobID) != ReducerCoordinatorLambdaName(jobID)
  {
    assert MapperLambdaName(jobID)[3] == 'm';
    assert ReducerLambdaName(jobID)[3] == 'r' && ReducerCoordinatorLambdaName(jobID)[3] == 'r';
    assert ReducerLambdaName(jobID)[10] == '-' && ReducerCoordinatorLambdaName(jobID)[10] == 'C';
  }

  /** Each name determines the job id it was derived from. */
  lemma LambdaNamesDetermineJob(a: string, b: string)
    requires MapperLambdaName(a) == MapperLambdaName(b)
          || ReducerLambdaName(a) == ReducerLambdaName(b)
          || ReducerCoordinatorLambdaName(a) == ReducerCoordinatorLambdaName(b)
    ensures a == b
  {
    assert MapperLambdaName(a)[10..] == a && MapperLambdaName(b)[10..] == b;
    assert ReducerLambdaName(a)[11..] == a && ReducerLambdaName(b)[11..] == b;
    assert ReducerCoordinatorLambdaName(a)[22..] == a && ReducerCoordinatorLambdaName(b)[22..] == b;
  }

  // ---------------------------------------------------------------------------
  // Job descriptor, job data and invocation payloads

  /** The driver configuration fields the modelled steps use. */
  datatype Config = Config(bucket: string, jobBucket: string, lambdaMemory: int, reducerHandler: string)

  /**
   * The job descriptor handed to `writeJobConfig` before any dispatch
   * (`JobInfo`). Its `numMappers` field is unexported in Go, so the JSON file
   * written from it leaves the mapper count out.
   */
  datatype JobInfo = JobInfo(
    jobID: string, jobBucket: string, reducerLambdaName: string, reducerHandler: string, numMappers: nat)

  /** The job summary stored in the job bucket; the start time is read from the clock, here a parameter. */
  datatype JobData = JobData(mapCount: nat, totalS3Files: nat, startTime: real)

  /** What one mapper invocation is given. */
  datatype LambdaPayload = LambdaPayload(
    bucket: string, keys: seq<string>, jobBucket: string, jobID: string, mapperID: nat)

  /**
   * The dispatch loop: one invocation per batch, `mapperID` running from 0 to
   * `numMappers - 1`; the payloads are what the invocations are started with.
   */
  method DispatchPayloads(batches: seq<seq<string>>, bucket: string, jobBucket: string, jobID: string)
    returns (payloads: seq<LambdaPayload>)
    ensures |payloads| == |batches|
    ensures forall i :: 0 <= i < |batches| ==>
      payloads[i] == LambdaPayload(bucket, batches[i], jobBucket, jobID, i)
  {
    var numMappers := |batches|;
    payloads := [];
    var mapperID := 0;
    while mapperID < numMappers
      invariant 0 <= mapperID <= numMappers
      invariant |payloads| == mapperID
      invariant forall i :: 0 <= i < mapperID ==>
        payloads[i] == LambdaPayload(bucket, batches[i], jobBucket, jobID, i)
    {
      payloads := payloads + [LambdaPayload(bucket, batches[mapperID], jobBucket, jobID, mapperID)];
      mapperID := mapperID + 1;
    }
  }

  function PayloadKeys(payloads: seq<LambdaPayload>): (keys: seq<seq<string>>)
    ensures |keys| == |payloads|
    ensures forall i :: 0 <= i < |payloads| ==> keys[i] == payloads[i].keys
  {
    seq(|payloads|, i requires 0 <= i < |payloads| => payloads[i].keys)
  }

  /** Everything the driver derives from the listing before it deploys anything. */
  datatype JobPlan = JobPlan(
    objectsPerBatch: int,
    batches: seq<seq<string>>,
    mapperLambdaName: string,
    reducerLambdaName: string,
    reducerCoordinatorLambdaName: string,
    jobInfo: JobInfo,
    jobData: JobData,
    statementId: string,
    permissionSourceArn: string,
    payloads: seq<LambdaPayload>)

  /**
   * The pure part of `main`: batch size, batches, mapper count, names, job
   * descriptor, job data, the permission's statement id and source ARN, and the
   * payloads, from the listed objects. `randomId` is the number the source
   * draws with `rand.Intn(1000)`; `nonFiniteQuotient` is what converting a NaN
   * or infinite batch size to `int` yields (see `LambdaUtils.BatchSize`).
   */
  method PlanJob(
    jobID: string, config: Config, allObjects: seq<LambdaUtils.StoredObject>, startTime: real, randomId: nat,
    nonFiniteQuotient: int)
    returns (plan: JobPlan)
    requires randomId < 1000
    ensures LambdaUtils.TotalSize(allObjects) > 0 ==>
      plan.objectsPerBatch
        == LambdaUtils.IdealBatchSize(LambdaUtils.TotalSize(allObjects), |allObjects|, config.lambdaMemory)
    ensures plan.objectsPerBatch
      == LambdaUtils.BatchSize(LambdaUtils.TotalSize(allObjects), |allObjects|, config.lambdaMemory, nonFiniteQuotient)
    ensures allObjects == [] ==> plan.batches == [] && plan.payloads == [] && plan.jobData.mapCount == 0
    ensures LambdaUtils.IsBatching(plan.batches, LambdaUtils.Keys(allObjects), plan.objectsPerBatch)
    ensures |plan.batches| == LambdaUtils.BatchCount(|allObjects|, plan.objectsPerBatch)
    ensures plan.mapperLambdaName == MapperLambdaName(jobID)
    ensures plan.reducerLambdaName == ReducerLambdaName(jobID)
    ensures plan.reducerCoordinatorLambdaName == ReducerCoordinatorLambdaName(jobID)
    ensures plan.jobInfo
      == JobInfo(jobID, config.jobBucket, ReducerLambdaName(jobID), config.reducerHandler, |plan.batches|)
    ensures plan.jobData == JobData(|plan.batches|, |allObjects|, startTime)
    ensures plan.statementId == StatementId(randomId)
    ensures plan.permissionSourceArn == S3ArnPrefix + config.jobBucket
    ensures |plan.payloads| == |plan.batches|
    ensures forall i :: 0 <= i < |plan.payloads| ==>
      plan.payloads[i] == LambdaPayload(config.bucket, plan.batches[i], config.jobBucket, jobID, i)
    ensures LambdaUtils.Flatten(PayloadKeys(plan.payloads)) == LambdaUtils.Keys(allObjects)
  {
    var objectsPerBatch := LambdaUtils.ComputeBatchSize(allObjects, config.lambdaMemory, nonFiniteQuotient);
    var batches := LambdaUtils.BatchCreator(allObjects, objectsPerBatch);
    var numMappers := |batches|;
    var mapperName := MapperLambdaName(jobID);
    var reducerName := ReducerLambdaName(jobID);
    var coordinatorName := ReducerCoordinatorLambdaName(jobID);
    var jobInfo := JobInfo(jobID, config.jobBucket, reducerName, config.reducerHandler, numMappers);
    var jobData := JobData(numMappers, |allObjects|, startTime);
    var statementId := StatementId(randomId);
    var sourceArn := S3ArnPrefix + config.jobBucket;
    var payloads := DispatchPayloads(batches, config.bucket, config.jobBucket, jobID);
    assert PayloadKeys(payloads) == batches;
    plan := JobPlan(objectsPerBatch, batches, mapperName, reducerName, coordinatorName, jobInfo, jobData,
                    statementId, sourceArn, payloads);
  }

  // ---------------------------------------------------------------------------
  // Permission for the job bucket to invoke the reducer coordinator

  /** An error returned by an AWS call: a request failure carries an HTTP status code. */
  datatype AwsError = RequestFailure(statusCode: int, message: string) | OtherError(message: string)

  const StatusConflict: int := 409

  /** The permission lets the job bucket, named by this ARN prefix and the bucket name, invoke the coordinator. */
  const S3ArnPrefix: string := "arn:aws:s3:::"

  /**
   * Adding the permission succeeded, or failed only because the statement
   * already exists (a request failure with status 409); any other error is fatal.
   */
  predicate PermissionGranted(err: Option<AwsError>) {
    match err
    case None => true
    case Some(RequestFailure(status, _)) => status == StatusConflict
    case Some(OtherError(_)) => false
  }

  /**
   * The three outcomes of adding the permission: no error and a 409 conflict
   * let the job go on; a request failure with any other status, or an error
   * that is not a request failure, stops it.
   */
  lemma PermissionOutcomes(status: int, message: string)
    ensures PermissionGranted(None)
    ensures PermissionGranted(Some(RequestFailure(status, message))) <==> status == 409
    ensures !PermissionGranted(Some(OtherError(message)))
  {
  }

  /**
   * The statement id the source passes when it adds the permission: Go's
   * `string(rand.Intn(1000))` converts the number to the one character with
   * that code point, not to its decimal digits.
   */
  function StatementIdAsWritten(n: nat): (id: string)
    requires n < 1000
    ensures |id| == 1 && id[0] as int == n
  {
    [n as char]
  }

  /** The evidently intended statement id: the decimal digits of the number, which `Atoi` reads back. */
  function StatementId(n: nat): (id: string)
    requires n < 1000
    ensures StrConv.AllDigits(id) && StrConv.Atoi(id) == Some(n)
  {
    StrConv.AtoiItoa(n);
    StrConv.Itoa(n)
  }

  /**
   * The two ids never agree: below 10 the written one is a control character,
   * from 10 on the intended one has at least two digits. For 65 the written id is "A".
   */
  lemma StatementIdAsWrittenDiffers(n: nat)
    requires n < 1000
    ensures StatementIdAsWritten(n) != StatementId(n)
    ensures StatementIdAsWritten(65) == "A"
  {
    if n < 10 {
      assert !StrConv.IsDigit(StatementIdAsWritten(n)[0]);
    } else {
      assert StrConv.Itoa(n) == StrConv.NatToDigits(n / 10) + [StrConv.DigitChar(n % 10)];
    }
  }

  // ---------------------------------------------------------------------------
  // Mapper results

  /** What an invocation reports on the result channel: the decoded reply and an error, `nil` or not. */
  datatype InvokeLambdaResult = InvokeLambdaResult(payload: seq<string>, error: Option<string>)

  /** Why consuming a result aborts the job. */
  datatype Failure =
    | InvocationError(message: string)  // result.Error != nil
    | IndexOutOfRange(index: nat)       // the reply has no element at this position
    | NotAnInteger(index: nat)          // strconv.Atoi rejected this element
    | NotAFloat                         // strconv.ParseFloat rejected the third element

  datatype MapperStats = MapperStats(s3GetOps: int, lines: int)

  /**
   * How the aggregation loop reads one result, as a function: the error is
   * checked first, then elements 0, 1 and 2 in order. Whether `ParseFloat`
   * accepts the third element is the parameter `parseFloatOk`.
   */
  function DecodeResult(r: InvokeLambdaResult, parseFloatOk: string -> bool): Result<MapperStats, Failure>
  {
    if r.error.Some? then Err(InvocationError(r.error.value))
    else if |r.payload| < 1 then Err(IndexOutOfRange(0))
    else if StrConv.Atoi(r.payload[0]).None? then Err(NotAnInteger(0))
    else if |r.payload| < 2 then Err(IndexOutOfRange(1))
    else if StrConv.Atoi(r.payload[1]).None? then Err(NotAnInteger(1))
    else if |r.payload| < 3 then Err(IndexOutOfRange(2))
    else if !parseFloatOk(r.payload[2]) then Err(NotAFloat)
    else Ok(MapperStats(StrConv.Atoi(r.payload[0]).value, StrConv.Atoi(r.payload[1]).value))
  }

  /**
   * A result is read without aborting exactly when it carries no error, has at
   * least three elements, the first two are decimal integers `Atoi` accepts and
   * `ParseFloat` accepts the third; then its statistics are those two integers.
   * An error is reported before anything else is looked at, and an empty reply
   * fails on the first index.
   */
  lemma DecodeResultOutcomes(r: InvokeLambdaResult, parseFloatOk: string -> bool)
    ensures DecodeResult(r, parseFloatOk).Ok? <==>
      && r.error.None?
      && |r.payload| >= 3
      && StrConv.Atoi(r.payload[0]).Some?
      && StrConv.Atoi(r.payload[1]).Some?
      && parseFloatOk(r.payload[2])
    ensures DecodeResult(r, parseFloatOk).Ok? ==>
      DecodeResult(r, parseFloatOk).value
        == MapperStats(StrConv.Atoi(r.payload[0]).value, StrConv.Atoi(r.payload[1]).value)
    ensures r.error.Some? ==> DecodeResult(r, parseFloatOk) == Err(InvocationError(r.error.value))
    ensures r.error.None? && |r.payload| == 0 ==> DecodeResult(r, parseFloatOk) == Err(IndexOutOfRange(0))
  {
  }

  /** Every result in `results` is read without aborting (see `AllDecodeIff` for the quantified form). */
  predicate AllDecode(results: seq<InvokeLambdaResult>, parseFloatOk: string -> bool) {
    results == []
    || (AllDecode(results[..|results| - 1], parseFloatOk)
        && DecodeResult(results[|results| - 1], parseFloatOk).Ok?)
  }

  lemma {:induction false} AllDecodeIff(results: seq<InvokeLambdaResult>, parseFloatOk: string -> bool)
    ensures AllDecode(results, parseFloatOk)
        <==> forall i :: 0 <= i < |results| ==> DecodeResult(results[i], parseFloatOk).Ok?
  {
    if results != [] {
      var init := results[..|results| - 1];
      AllDecodeIff(init, parseFloatOk);
      assert forall i :: 0 <= i < |init| ==> init[i] == results[i];
    }
  }

  /** One result that cannot be read is enough for the job not to complete. */
  lemma NotAllDecode(results: seq<InvokeLambdaResult>, i: nat, parseFloatOk: string -> bool)
    requires i < |results| && DecodeResult(results[i], parseFloatOk).Err?
    ensures !AllDecode(results, parseFloatOk)
  {
    AllDecodeIff(results, parseFloatOk);
  }

  /** The integer at position `index` of a result's reply, 0 when there is none. */
  function FieldValue(r: InvokeLambdaResult, index: nat): int {
    if index < |r.payload| && StrConv.Atoi(r.payload[index]).Some? then StrConv.Atoi(r.payload[index]).value
    else 0
  }

  /** The exact sum over `results` of the integers at position `index`: 0 for S3 reads, 1 for lines. */
  function SumField(results: seq<InvokeLambdaResult>, index: nat): int {
    if results == [] then 0
    else SumField(results[..|results| - 1], index) + FieldValue(results[|results| - 1], index)
  }

  const S3GetOpsField: nat := 0
  const LinesField: nat := 1

  /** The aggregation loop ends with the two integer totals or aborts at one result. */
  datatype Aggregation = Totals(s3GetOps: int, lines: int) | Abort(at: nat, failure: Failure)

  /**
   * The aggregation loop of `main`: receives `numMappers` results one at a time,
   * aborts at the first one with an error or an element it cannot parse, and
   * otherwise adds the first two elements to the 64-bit totals. `consumed` is
   * the number of results received. (The source adds the first element before
   * it parses the second; as an abort discards the totals, adding both after
   * the checks is the same.)
   */
  method AggregateResults(numMappers: nat, arrivals: seq<InvokeLambdaResult>, parseFloatOk: string -> bool)
    returns (outcome: Aggregation, consumed: nat)
    requires |arrivals| == numMappers
    ensures outcome.Totals? <==> AllDecode(arrivals, parseFloatOk)
    ensures outcome.Totals? ==>
      && outcome.s3GetOps == Wrap64(SumField(arrivals, S3GetOpsField))
      && outcome.lines == Wrap64(SumField(arrivals, LinesField))
      && consumed == numMappers
    ensures outcome.Abort? ==>
      && outcome.at < numMappers
      && consumed == outcome.at + 1
      && DecodeResult(arrivals[outcome.at], parseFloatOk) == Err(outcome.failure)
      && AllDecode(arrivals[..outcome.at], parseFloatOk)
  {
    var totalS3GetOps := 0;
    var totalLines := 0;
    var i := 0;
    while i < numMappers
      invariant 0 <= i <= numMappers
      invariant AllDecode(arrivals[..i], parseFloatOk)
      invariant totalS3GetOps == Wrap64(SumField(arrivals[..i], S3GetOpsField))
      invariant totalLines == Wrap64(SumField(arrivals[..i], LinesField))
    {
      var failure;
      failure, totalS3GetOps, totalLines := ReceiveResult(arrivals, i, totalS3GetOps, totalLines, parseFloatOk);
      if failure.Some? {
        NotAllDecode(arrivals, i, parseFloatOk);
        return Abort(i, failure.value), i + 1;
      }
      i := i + 1;
    }
    assert arrivals[..numMappers] == arrivals;
    outcome, consumed := Totals(totalS3GetOps, totalLines), numMappers;
  }

  /**
   * One iteration of the aggregation loop: reads result `i` and either reports
   * why it aborts or adds its two integers to the wrapped totals of the results
   * before it.
   */
  method ReceiveResult(arrivals: seq<InvokeLambdaResult>, i: nat, totalS3GetOps: int, totalLines: int,
                       parseFloatOk: string -> bool)
    returns (failure: Option<Failure>, s3GetOps: int, lines: int)
    requires i < |arrivals|
    requires AllDecode(arrivals[..i], parseFloatOk)
    requires totalS3GetOps == Wrap64(SumField(arrivals[..i], S3GetOpsField))
    requires totalLines == Wrap64(SumField(arrivals[..i], LinesField))
    ensures failure.Some? ==> DecodeResult(arrivals[i], parseFloatOk) == Err(failure.value)
    ensures failure.None? ==>
      && AllDecode(arrivals[..i + 1], parseFloatOk)
      && s3GetOps == Wrap64(SumField(arrivals[..i + 1], S3GetOpsField))
      && lines == Wrap64(SumField(arrivals[..i + 1], LinesField))
  {
    match DecodeResult(arrivals[i], parseFloatOk)
    case Err(f) =>
      failure, s3GetOps, lines := Some(f), totalS3GetOps, totalLines;
    case Ok(stats) =>
      AllDecodeStep(arrivals, i, parseFloatOk);
      DecodedFields(arrivals[i], stats, parseFloatOk);
      AddResult(arrivals, i, totalS3GetOps, totalLines, stats);
      failure, s3GetOps, lines := None, Wrap64(totalS3GetOps + stats.s3GetOps), Wrap64(totalLines + stats.lines);
  }

  /** A readable result extends the readable prefix. */
  lemma AllDecodeStep(arrivals: seq<InvokeLambdaResult>, i: nat, parseFloatOk: string -> bool)
    requires i < |arrivals|
    requires AllDecode(arrivals[..i], parseFloatOk)
    requires DecodeResult(arrivals[i], parseFloatOk).Ok?
    ensures AllDecode(arrivals[..i + 1], parseFloatOk)
  {
    assert arrivals[..i + 1][..i] == arrivals[..i];
  }

  /** One step of the loop: adding a result's two integers to the wrapped totals of the results before it. */
  lemma AddResult(arrivals: seq<InvokeLambdaResult>, i: nat, s3GetOps: int, lines: int, stats: MapperStats)
    requires i < |arrivals|
    requires s3GetOps == Wrap64(SumField(arrivals[..i], S3GetOpsField))
    requires lines == Wrap64(SumField(arrivals[..i], LinesField))
    requires FieldValue(arrivals[i], S3GetOpsField) == stats.s3GetOps
    requires FieldValue(arrivals[i], LinesField) == stats.lines
    ensures Wrap64(s3GetOps + stats.s3GetOps) == Wrap64(SumField(arrivals[..i + 1], S3GetOpsField))
    ensures Wrap64(lines + stats.lines) == Wrap64(SumField(arrivals[..i + 1], LinesField))
  {
    AddToTotal(arrivals, i, S3GetOpsField, s3GetOps, stats.s3GetOps);
    AddToTotal(arrivals, i, LinesField, lines, stats.lines);
  }

  /** The two integers a readable result contributes are the ones `FieldValue` picks out. */
  lemma DecodedFields(r: InvokeLambdaResult, stats: MapperStats, parseFloatOk: string -> bool)
    requires DecodeResult(r, parseFloatOk) == Ok(stats)
    ensures FieldValue(r, S3GetOpsField) == stats.s3GetOps
    ensures FieldValue(r, LinesField) == stats.lines
  {
  }

  /** Adding the next result's field to the wrapped total of the earlier ones. */
  lemma AddToTotal(arrivals: seq<InvokeLambdaResult>, i: nat, index: nat, total: int, v: int)
    requires i < |arrivals|
    requires total == Wrap64(SumField(arrivals[..i], index))
    requires v == FieldValue(arrivals[i], index)
    ensures Wrap64(total + v) == Wrap64(SumField(arrivals[..i + 1], index))
  {
    assert arrivals[..i + 1][..i] == arrivals[..i];
    Wrap64Add(SumField(arrivals[..i], index), FieldValue(arrivals[i], index));
  }

  /** The sum over two consecutive runs of results is the sum of their sums. */
  lemma {:induction false} SumFieldConcat(s: seq<InvokeLambdaResult>, t: seq<InvokeLambdaResult>, index: nat)
    ensures SumField(s + t, index) == SumField(s, index) + SumField(t, index)
    decreases |t|
  {
    if t == [] {
      assert s + t == s;
    } else {
      assert (s + t)[..|s + t| - 1] == s + t[..|t| - 1];
      SumFieldConcat(s, t[..|t| - 1], index);
    }
  }

  /** Removing one result from a sequence removes exactly its field from the sum. */
  lemma SumFieldRemove(s: seq<InvokeLambdaResult>, j: nat, index: nat)
    requires j < |s|
    ensures SumField(s, index) == SumField(s[..j] + s[j + 1..], index) + FieldValue(s[j], index)
  {
    var before, after := s[..j], s[j + 1..];
    assert SumField(before + [s[j]], index) == SumField(before, index) + FieldValue(s[j], index) by {
      assert (before + [s[j]])[..|before|] == before;
    }
    assert SumField(s, index) == SumField(before + [s[j]], index) + SumField(after, index) by {
      assert s == (before + [s[j]]) + after;
      SumFieldConcat(before + [s[j]], after, index);
    }
    SumFieldConcat(before, after, index);
  }

  /** The last element of `a` occurs in its permutation `b`; without them the rest are still permutations. */
  lemma MatchLast(a: seq<InvokeLambdaResult>, b: seq<InvokeLambdaResult>) returns (j: nat)
    requires a != [] && multiset(a) == multiset(b)
    ensures j < |b| && b[j] == a[|a| - 1]
    ensures multiset(a[..|a| - 1]) == multiset(b[..j] + b[j + 1..])
  {
    var x := a[|a| - 1];
    assert a == a[..|a| - 1] + [x];
    assert x in multiset(b);
    j :| 0 <= j < |b| && b[j] == x;
    assert b == b[..j] + [x] + b[j + 1..];
    var rest, before, after := multiset(a[..|a| - 1]), multiset(b[..j]), multiset(b[j + 1..]);
    assert rest + multiset{x} == before + after + multiset{x};
    assert rest == (rest + multiset{x}) - multiset{x};
    assert before + after == (before + after + multiset{x}) - multiset{x};
    assert multiset(b[..j] + b[j + 1..]) == before + after;
  }

  /** A sum does not depend on the order of the results. */
  lemma {:induction false} SumFieldPermutation(a: seq<InvokeLambdaResult>, b: seq<InvokeLambdaResult>, index: nat)
    requires multiset(a) == multiset(b)
    ensures SumField(a, index) == SumField(b, index)
    decreases |a|
  {
    if a == [] {
      assert |b| == |multiset(b)| == 0;
    } else {
      var j := MatchLast(a, b);
      SumFieldPermutation(a[..|a| - 1], b[..j] + b[j + 1..], index);
      SumFieldRemove(b, j, index);
    }
  }

  /**
   * Whether the loop completes, and the totals it reports when it does, depend
   * only on which results arrive and not on their arrival order.
   */
  lemma AggregationOrderIndependent(a: seq<InvokeLambdaResult>, b: seq<InvokeLambdaResult>, parseFloatOk: string -> bool)
    requires multiset(a) == multiset(b)
    ensures AllDecode(a, parseFloatOk) <==> AllDecode(b, parseFloatOk)
    ensures SumField(a, S3GetOpsField) == SumField(b, S3GetOpsField)
    ensures SumField(a, LinesField) == SumField(b, LinesField)
  {
    SumFieldPermutation(a, b, S3GetOpsField);
    SumFieldPermutation(a, b, LinesField);
    AllDecodeIff(a, parseFloatOk);
    AllDecodeIff(b, parseFloatOk);
    forall i | 0 <= i < |a| ensures a[i] in multiset(b) {
      assert a[i] in multiset(a);
    }
    forall i | 0 <= i < |b| ensures b[i] in multiset(a) {
      assert b[i] in multiset(b);
    }
    if AllDecode(a, parseFloatOk) {
      forall i | 0 <= i < |b| ensures DecodeResult(b[i], parseFloatOk).Ok? {
        var k :| 0 <= k < |a| && a[k] == b[i];
      }
    }
    if AllDecode(b, parseFloatOk) {
      forall i | 0 <= i < |a| ensures DecodeResult(a[i], parseFloatOk).Ok? {
        var k :| 0 <= k < |b| && b[k] == a[i];
      }
    }
  }

  /** The first example reply ["3", "1000", "2.5"]: 3 reads and 1000 lines. */
  lemma DecodeFirstExample(parseFloatOk: string -> bool)
    requires parseFloatOk("2.5")
    ensures DecodeResult(InvokeLambdaResult(["3", "1000", "2.5"], None), parseFloatOk) == Ok(MapperStats(3, 1000))
  {
    assert "3"[..0] == "";
    assert StrConv.ParseDigits("1000") == Some(1000) by {
      assert "1000"[..3] == "100" && "100"[..2] == "10" && "10"[..1] == "1" && "1"[..0] == "";
    }
  }

  /** The second example reply ["1", "500", "1.0"]: 1 read and 500 lines. */
  lemma DecodeSecondExample(parseFloatOk: string -> bool)
    requires parseFloatOk("1.0")
    ensures DecodeResult(InvokeLambdaResult(["1", "500", "1.0"], None), parseFloatOk) == Ok(MapperStats(1, 500))
  {
    assert "1"[..0] == "";
    assert StrConv.ParseDigits("500") == Some(500) by {
      assert "500"[..2] == "50" && "50"[..1] == "5" && "5"[..0] == "";
    }
  }

  /** The two results of the example replies add up to 4 reads and 1500 lines. */
  lemma AggregationExample(parseFloatOk: string -> bool)
    requires parseFloatOk("2.5") && parseFloatOk("1.0")
    ensures var results := [InvokeLambdaResult(["3", "1000", "2.5"], None), InvokeLambdaResult(["1", "500", "1.0"], None)];
      AllDecode(results, parseFloatOk)
      && Wrap64(SumField(results, S3GetOpsField)) == 4
      && Wrap64(SumField(results, LinesField)) == 1500
  {
    var results := [InvokeLambdaResult(["3", "1000", "2.5"], None), InvokeLambdaResult(["1", "500", "1.0"], None)];
    DecodeFirstExample(parseFloatOk);
    DecodeSecondExample(parseFloatOk);
    DecodedFields(results[0], MapperStats(3, 1000), parseFloatOk);
    DecodedFields(results[1], MapperStats(1, 500), parseFloatOk);
    assert results[..1][..0] == [] && results[..1] == [results[0]];
  }

  // ---------------------------------------------------------------------------
  // `main`, sequentially

  /**
   * What the steps `main` delegates to the outside report: whether each of
   * them succeeded, and the error (if any) of adding the permission.
   */
  datatype Collaborators = Collaborators(
    jobConfigWritten: bool,
    packaged: bool,
    mapperDeployed: bool,
    reducerDeployed: bool,
    reducerCoordinatorDeployed: bool,
    permissionError: Option<AwsError>,
    jobDataWritten: bool)

  /** The step at which the job panics. */
  datatype Stage =
    | WriteJobConfig
    | Package
    | DeployMapper
    | DeployReducer
    | DeployReducerCoordinator
    | AddPermission
    | WriteJobData
    | ConsumeResult(at: nat, failure: Failure)

  /** The end of a job: a panic at one stage, or the printed integer totals. */
  datatype JobReport = Aborted(stage: Stage) | Finished(totalS3GetOps: int, totalLines: int)

  /** Every step before dispatch succeeds, a 409 on the permission counting as success. */
  predicate SetupSucceeds(c: Collaborators) {
    && c.jobConfigWritten && c.packaged
    && c.mapperDeployed && c.reducerDeployed && c.reducerCoordinatorDeployed
    && PermissionGranted(c.permissionError)
    && c.jobDataWritten
  }

  /** The steps before the permission all succeed. */
  predicate DeployedAll(c: Collaborators) {
    c.jobConfigWritten && c.packaged && c.mapperDeployed && c.reducerDeployed && c.reducerCoordinatorDeployed
  }

  /**
   * `main` from the listing on: plan the job, run the steps in the order of the
   * source (each failure is a panic), dispatch, and fold the results that
   * arrive. `arrivals` holds one result per mapper, in arrival order.
   */
  method RunJob(
    jobID: string, config: Config, allObjects: seq<LambdaUtils.StoredObject>, startTime: real,
    randomId: nat, nonFiniteQuotient: int, collaborators: Collaborators, arrivals: seq<InvokeLambdaResult>,
    parseFloatOk: string -> bool)
    returns (plan: JobPlan, report: JobReport)
    requires randomId < 1000
    requires |arrivals| == LambdaUtils.BatchCount(|allObjects|,
      LambdaUtils.BatchSize(LambdaUtils.TotalSize(allObjects), |allObjects|, config.lambdaMemory, nonFiniteQuotient))
    ensures plan.jobInfo.numMappers == plan.jobData.mapCount == |plan.payloads| == |plan.batches| == |arrivals|
    ensures LambdaUtils.Flatten(PayloadKeys(plan.payloads)) == LambdaUtils.Keys(allObjects)
    ensures report == Aborted(WriteJobConfig) <==> !collaborators.jobConfigWritten
    ensures report == Aborted(Package) <==> collaborators.jobConfigWritten && !collaborators.packaged
    ensures report == Aborted(DeployMapper) <==>
      collaborators.jobConfigWritten && collaborators.packaged && !collaborators.mapperDeployed
    ensures report == Aborted(DeployReducer) <==>
      collaborators.jobConfigWritten && collaborators.packaged && collaborators.mapperDeployed
      && !collaborators.reducerDeployed
    ensures report == Aborted(DeployReducerCoordinator) <==>
      collaborators.jobConfigWritten && collaborators.packaged && collaborators.mapperDeployed
      && collaborators.reducerDeployed && !collaborators.reducerCoordinatorDeployed
    ensures report == Aborted(AddPermission) <==>
      DeployedAll(collaborators) && !PermissionGranted(collaborators.permissionError)
    ensures report == Aborted(WriteJobData) <==>
      DeployedAll(collaborators) && PermissionGranted(collaborators.permissionError) && !collaborators.jobDataWritten
    ensures report.Finished? <==> SetupSucceeds(collaborators) && AllDecode(arrivals, parseFloatOk)
    ensures report.Finished? ==>
      report == Finished(Wrap64(SumField(arrivals, S3GetOpsField)), Wrap64(SumField(arrivals, LinesField)))
    ensures report.Aborted? && report.stage.ConsumeResult? ==>
      && SetupSucceeds(collaborators)
      && report.stage.at < |arrivals|
      && DecodeResult(arrivals[report.stage.at], parseFloatOk) == Err(report.stage.failure)
      && AllDecode(arrivals[..report.stage.at], parseFloatOk)
    ensures allObjects == [] && SetupSucceeds(collaborators) ==> report == Finished(0, 0)
  {
    plan := PlanJob(jobID, config, allObjects, startTime, randomId, nonFiniteQuotient);
    var c := collaborators;
    if !c.jobConfigWritten { return plan, Aborted(WriteJobConfig); }
    if !c.packaged { return plan, Aborted(Package); }
    if !c.mapperDeployed { return plan, Aborted(DeployMapper); }
    if !c.reducerDeployed { return plan, Aborted(DeployReducer); }
    if !c.reducerCoordinatorDeployed { return plan, Aborted(DeployReducerCoordinator); }
    if !PermissionGranted(c.permissionError) { return plan, Aborted(AddPermission); }
    if !c.jobDataWritten { return plan, Aborted(WriteJobData); }
    var outcome, consumed := AggregateResults(plan.jobInfo.numMappers, arrivals, parseFloatOk);
    match outcome
    case Totals(s3GetOps, lines) =>
      report := Finished(s3GetOps, lines);
    case Abort(at, failure) =>
      report := Aborted(ConsumeResult(at, failure));
  }
}
