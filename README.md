# Serverless MapReduce driver, modelled in Dafny

The driver of a serverless MapReduce job lists the objects of an input bucket.
It works out how many objects one mapper invocation may take from the
invocation memory and the average object size, and cuts the object keys into
batches of that size. It derives the names of the mapper, reducer and reducer
coordinator functions from the job id. It writes a job descriptor, and job data
that records the number of mappers. It lets the job bucket invoke the
coordinator, where an "already exists" conflict (HTTP 409) is not an error.
Finally it starts one mapper per batch and folds the mappers' replies into
job totals: S3 reads, lines and seconds.

The model has five modules, one per file:

- `wrappers.dfy`, module `Wrappers`: `Option` and `Result`.
- `goint.dfy`, module `GoInt`: the range of Go's 64-bit `int` and two's-complement wrap-around (`Wrap64`).
- `strconv.dfy`, module `StrConv`: `strconv.Atoi` as the driver uses it. `Itoa` is the formatting partner for the round trip.
- `lambdautils.dfy`, module `LambdaUtils`: `ComputeBatchSize` and `BatchCreator` from `src/go/lambdautils/lambdautils.go`.
  - Both are loop methods.
  - Each is proved against a specification function or predicate: `BatchSize` with `IdealBatchSize`, and `IsBatching` with `BatchCount`.
- `driver.dfy`, module `Driver`: the core of `main` in `src/go/driver.go`.
  - Function names, job descriptor and job data.
  - The dispatch loop that builds one payload per batch.
  - The 409 rule.
  - The aggregation loop over the mapper results. This loop aborts on the first bad result, or else returns the wrapped integer totals.
  - `RunJob`: `main` from the listing on, with each outside step as an input flag.

Batch size over exact integers: `IdealBatchSize` is 6·mem·10^6·n divided by
10·total, truncated toward zero, which is the exact value of
`int(0.6 * float64(mem*10^6) / (total/n))`. The code has no clamp to a
minimum of 1 and no special error for an empty listing: a batch size of 0 or
less puts all keys into one batch. When the total size is 0 the quotient is NaN
or an infinity, and Go leaves its conversion to `int` to the implementation.
The model takes that value as the parameter `nonFiniteQuotient`. It proves that
an empty listing, whatever that value, still runs to completion with zero
mappers and zero totals when every setup step succeeds.

## Model

| member | source | states |
|---|---|---|
| LambdaUtils.ComputeBatchSize | src/go/lambdautils/lambdautils.go:46-57 | For a dataset of positive total size, the summing loop and the division return exactly `IdealBatchSize` of the total size, the object count and the memory. For total size 0 (no objects, or only empty ones) the result is the implementation-defined conversion of a NaN or infinite quotient |
| LambdaUtils.IdealBatchSize | src/go/lambdautils/lambdautils.go:53-56 | The result is the quotient of usable memory by dataset size, truncated toward zero: r·d ≤ u < (r+1)·d for u ≥ 0, mirrored for u < 0 |
| LambdaUtils.IdealBatchSizeIsQuotientOfAverage | src/go/lambdautils/lambdautils.go:53-56 | Over the rationals, the batch size is the integer part of 0.6·mem·10^6 divided by the average object size |
| LambdaUtils.IdealBatchSizeZeroWhenAverageTooLarge | src/go/lambdautils/lambdautils.go:55-57 | With no clamp, the batch size is 0 exactly when the average object size exceeds the usable memory |
| LambdaUtils.IdealBatchSizeExample | src/go/lambdautils/lambdautils.go:53-56 | Ten objects of 10^6 bytes with 1536 MB give 921 objects per batch, which is one batch |
| LambdaUtils.BatchCreator | src/go/lambdautils/lambdautils.go:60-75 | The concatenated batches are the keys in order and no batch is empty. For k ≥ 1 every batch but the last has k keys, the last at most k, and the count is ceil(n/k). For k ≤ 0 a non-empty list is one batch. No objects give no batches |
| LambdaUtils.AppendKey | src/go/lambdautils/lambdautils.go:63-69 | Appending a key, and sealing the batch when its length reaches `objectsPerBatch`, keeps the loop state consistent with the keys walked so far |
| LambdaUtils.SealLast | src/go/lambdautils/lambdautils.go:71-74 | Keeping a non-empty trailing batch turns the final loop state into a batching of all keys with the expected count |
| LambdaUtils.FirstBatch | src/go/lambdautils/lambdautils.go:63-68 | The first batch is the first min(k, n) keys, and the remaining batches batch the remaining keys |
| LambdaUtils.BatchingUnique | src/go/lambdautils/lambdautils.go:60-75 | Two batchings of the same keys with the same size are equal, so `BatchCreator`'s contract fixes its result |
| LambdaUtils.BatchingExample | src/go/lambdautils/lambdautils.go:60-75 | Five keys at two per batch give exactly [[o1,o2],[o3,o4],[o5]] |
| StrConv.Atoi | src/go/driver.go:358-366 | A parsed value lies in the 64-bit range |
| StrConv.AtoiItoa | src/go/driver.go:358-366 | Parsing the decimal form of n gives back n when n fits in 64 bits, and fails otherwise |
| StrConv.AtoiSyntax | src/go/driver.go:358-366 | Only an optional sign followed by one or more ASCII digits parses |
| StrConv.AtoiRejects | src/go/driver.go:358-366 | "", "+", "-", "2.5" and " 7" are rejected |
| StrConv.AtoiAccepts | src/go/driver.go:358-366 | "+007" parses as 7 and "-12" as -12 |
| GoInt.Wrap64Add | src/go/driver.go:362-367 | Adding to a wrapped 64-bit total and wrapping again equals wrapping the exact sum |
| Driver.LambdaNamesDistinct | src/go/driver.go:239-242 | The mapper, reducer and coordinator names of one job are pairwise distinct |
| Driver.LambdaNamesDetermineJob | src/go/driver.go:239-242 | Each of the three names determines the job id it was built from |
| Driver.DispatchPayloads | src/go/driver.go:343-346 | One payload per batch, where payload i carries batch i, the bucket, the job bucket, the job id and mapper id i |
| Driver.PlanJob | src/go/driver.go:235-345 | Batch size, batches and mapper count come from `LambdaUtils`, for every listing. An empty listing gives no batches, no payloads and a mapper count of 0. The names, job descriptor, job data and source ARN are as the source builds them. The statement id is the corrected decimal `StatementId` (see Findings). The payloads cover every key exactly once, in order |
| Driver.PermissionOutcomes | src/go/driver.go:318-325 | No error, or a request failure with status 409, lets the job go on. Any other status, or an error that is not a request failure, stops it |
| Driver.StatementIdAsWritten | src/go/driver.go:318 | `string(n)` yields the one character with code point n |
| Driver.StatementId | src/go/driver.go:318 | The intended id is all digits, and `Atoi` reads it back as n |
| Driver.StatementIdAsWrittenDiffers | src/go/driver.go:318 | For every n < 1000 the id as written differs from the decimal id, and for 65 it is "A" |
| Driver.DecodeResultOutcomes | src/go/driver.go:353-371 | A result reads without panic iff it has no error, at least three elements, two `Atoi` integers and a float third element. Its statistics are then those integers. An error comes first, and an empty reply fails at index 0 |
| Driver.AllDecodeIff | src/go/driver.go:352-373 | The recursive "every result reads" predicate equals its quantified form |
| Driver.NotAllDecode | src/go/driver.go:352-356 | One unreadable result is enough for the job not to complete |
| Driver.AggregateResults | src/go/driver.go:348-373 | The loop completes iff every result reads, and then returns the 64-bit wrapped sums of the first two elements after consuming all numMappers results. Otherwise it stops at the first bad result, which is consumed, with all earlier results readable |
| Driver.ReceiveResult | src/go/driver.go:353-372 | One iteration: either the failure of result i, or the readable prefix grown by one with totals updated to the wrapped sums |
| Driver.AllDecodeStep | src/go/driver.go:352-356 | A readable result extends the readable prefix |
| Driver.AddResult | src/go/driver.go:362-367 | Adding a result's two integers to the wrapped totals gives the wrapped sums over the prefix one longer |
| Driver.DecodedFields | src/go/driver.go:358-367 | The integers added to the totals are the ones `Atoi` parsed from elements 0 and 1 |
| Driver.AddToTotal | src/go/driver.go:362-367 | One field added to its wrapped total equals the wrapped sum of the longer prefix |
| Driver.SumFieldPermutation | src/go/driver.go:343-373 | A sum over results does not depend on their order |
| Driver.AggregationOrderIndependent | src/go/driver.go:343-373 | Whichever order the channel delivers the results in, completion and both totals are the same |
| Driver.AggregationExample | src/go/driver.go:352-373 | Replies ["3","1000","2.5"] and ["1","500","1.0"] total 4 S3 reads and 1500 lines |
| Driver.RunJob | src/go/driver.go:235-374 | The counts agree and the payload keys are the listed keys, for every listing. Each setup step aborts the job iff every earlier step succeeded and it fails; for the permission, failing means an error that is not a 409. A report of Finished holds iff every step succeeds and every result reads, and then carries the wrapped totals. An abort while consuming names the first result that does not read. An empty listing with a successful setup finishes with totals 0 and 0 |

## Left out

- The AWS calls: listing, uploads, function creation and update, permission, invocation.
  - `CreateOrUpdateLambda` and `AddLambdaPermission` are not part of this model.
  - Each call's outcome is an input of `RunJob`: a flag, or the error for the permission.
- `CreateLambdaFunction` in `lambdautils.go`: it only reads the zip file, calls the Lambda `CreateFunction` API and records the returned function ARN.
- Packaging with zip and all file I/O (`zipLambda`, `writeJobConfig` writing `jobconfig.json`). The descriptor is modelled as the `JobInfo` value written.
- JSON encoding and decoding.
  - The payload and job data are values.
  - A mapper reply is its decoded `[]string`.
  - A marshalling, transport or decoding error is the result's error.
  - `JobInfo.numMappers` is unexported, so Go's JSON encoder leaves it out of the file. The model records the value passed.
- Goroutines and channels.
  - The results are a sequence with one entry per mapper, in arrival order.
  - Order independence is proved for every ordering.
  - `concurrentLambdas` is only printed.
- Floating point.
  - The sum of the seconds field is not modelled.
  - Whether `ParseFloat` accepts the third element is the parameter `parseFloatOk`.
  - The start time read from the clock is the parameter `startTime`.
- `rand.Intn(1000)`: the drawn number is the parameter `randomId`.
- Reading the configuration and the command line. `ListObjects` returns at most 1000 keys with no pagination, and the listing is an input.
- Printing.
- LambdaUtils.ComputeBatchSize: does not fix the result for a total size of 0, because converting the NaN or infinite quotient to `int` is implementation-defined in Go; the value is the parameter `nonFiniteQuotient`.
  - It computes over exact integers and rationals, so it does not model float64 rounding or a 64-bit overflow of `lambdaMemory*1000*1000` for huge memory.
- LambdaUtils.IdealBatchSizeIsQuotientOfAverage and LambdaUtils.IdealBatchSizeZeroWhenAverageTooLarge: stated for a non-negative memory only.
- Driver.PlanJob: builds the statement id with the corrected `StatementId` (decimal digits), not the one-character `string(n)` of the source; `StatementIdAsWritten` models the source's form, and the permission's outcome does not depend on the id in this model.
- StrConv.Atoi: Go's `int` is taken as 64 bits, and syntax and range errors are one `None`.
- Driver.AggregateResults: the source adds element 0 to its total before it parses element 1. A later abort discards the totals, so adding both after all checks gives the same outcome.
- After a panic, already-deployed functions are not cleaned up; there is nothing to model.

## Findings

| source | as written | input that shows it | evidently intended | confidence | as-written member | corrected member |
|---|---|---|---|---|---|---|
| src/go/driver.go:318 | `string(rand.Intn(1000))` makes a one-character string whose code point is the number | 65 gives "A"; 5 gives the control character U+0005 | the decimal digits of the number (`strconv.Itoa`) | medium, not executed | Driver.StatementIdAsWritten (shown by Driver.StatementIdAsWrittenDiffers) | Driver.StatementId (used by Driver.PlanJob) |
