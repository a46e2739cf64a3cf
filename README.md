# java-afl, modelled in Dafny

java-afl makes Java programs fuzzable with american fuzzy lop (AFL). It has two halves.

- **The rewriter.** It rewrites compiled classes so that every jump target and branch
  records an edge in a 64 KiB coverage map: `map[id ^ prev_location]++`, then
  `prev_location = id >> 1`. It also brackets each entry-point `main` with calls of
  `_before_main` and `_after_main`.
- **The runtime.** It talks to the AFL forkserver through JNI natives. It chooses between a
  forkserver mode and a "surrogate" mode. In surrogate mode a child process stands in for
  the forked process, and a monitor thread aborts the main thread when that child dies. It
  also offers persistent loops (`fuzz.loop()`, `fuzz.loop(n)`).

The repository holds two generations of each half, and they are modelled separately:

| file | generation | module |
|---|---|---|
| javafl/JavaAflInstrument.java | current rewriter | `MethodRewrite`, `Instrument`, `Driver` |
| JavaAflInstrument.java | prototype rewriter | `ProtoRewrite`, `ProtoInstrument` |
| javafl/JavaAfl.java | current runtime | `Protocol` (pure), `Runtime` (class) |
| javafl/fuzz.java | current user entry points | `Fuzz` |
| JavaAfl.java | prototype runtime | `ProtoRuntime` |

Shared pieces:

- `JavaTypes` models Java's `byte`, `int` and `long` and the `(byte)`, `^` and `>> 1`
  operations, written out on unbounded integers.
- `Bytecode` models the instructions the rewriters forward and emit. It has a small
  interpreter for the 12-instruction record block, and `Erase`, which takes every inserted
  instruction out again.
- `ClassFiles` models what a class reader offers: its bytes, its constant-pool item offsets,
  its name and its methods as event streams. It also holds the marker constant
  `__JAVA-AFL-INSTRUMENTED-CLASSFILE__`.

How the model is built:

- **The visitors.** The method and class visitors are classes. Their fields are those of the
  source, and every callback is a method proved equal to one step of a pure specification
  (`MethodRewrite.Step`, `ProtoRewrite.ProtoStep`). The properties are lemmas about those
  specifications.
- **The bytecode library (ASM).** Parsing, frame computation and class writing are an
  oracle: function-typed parameters (`Driver.Asm`, `ProtoInstrument.ProtoAsm`).
- **The unseeded generators.** `java.util.Random` is an infinite supplied stream of draws.
  `nextInt(b)` takes the next draw modulo `b`.
- **The runtime.** Its static fields are the fields of the class `Runtime.JavaAfl`. Every
  JNI native it calls becomes an entry appended to a `log`. Each entry point is a method
  proved to move the state exactly as the matching `Protocol` function says. The scenario
  lemmas (loops, a surrogate death) are stated on those functions.

Behaviour of the code that is easy to misread, as the model has it:

- **`fuzz.loop(n)` with persistence.** It answers true `n - 1` times and then false. Between
  them it sends `n - 1` ok reports (`Protocol.CeilingLast`): a ceiling of 3 gives true, true,
  false with 2 reports. It does not give three continues with three reports. The prototype's
  `loop(n)` answers true `max(1, n)` times when persistence is allowed, and once otherwise
  (`ProtoRuntime.ProtoLoopScenario`).
- **The entry-point test.** It accepts a method named `main` with `ACC_PUBLIC` *or*
  `ACC_STATIC` set. It is not "public and static" (`Instrument.EntryPointFlags`).
- **`is_instrumented`.** It stops at the first constant-pool item that declares the marker's
  length but whose bytes run past the end of the file (`Instrument.ScanFromMeans`). On the
  item table a class reader builds this never hides a marker (`Instrument.ScanExact`). In
  that table slot 0 and the slot after each long or double constant hold 0, and the other
  offsets increase (`ClassFiles.AsmLayout`). A non-zero item before a marker lies earlier in
  the file, and a zero slot cannot overrun a file long enough to hold the marker. The
  prototype's `has_instrumentation` pads with zeros and never stops early
  (`ProtoInstrument.ScansAgree`).
- **Rolling back `total_locations`.** It happens only on a retryable failure. A failure
  inside `accept` keeps the locations counted for the methods visited in full before it.

One observation: `_persistent_mode_loop_reset` clears the iteration count and the "loop
initialised" flag, but not `_run_persistent`. After a persistent surrogate round,
`_surrogate_mode_loop` followed by the next `_persistent_mode_loop()` sends two ok reports in
a row, and the loop body has not run in between (`Protocol.ResetKeepsPersistence`). Which
behaviour the native side expects is not visible in the code, so this is recorded here and
not claimed as a defect.

## Model

| member | source | states |
|---|---|---|
| JavaTypes.I2B | javafl/JavaAflInstrument.java:133-134 | the `(byte)` narrowing keeps the value modulo 256 and is the identity on byte values |
| JavaTypes.Wrap32 | javafl/JavaAflInstrument.java:130-132 | `int` addition wraps: the result agrees with the sum modulo 2^32 and equals it when no overflow occurs |
| JavaTypes.Unsigned | javafl/JavaAflInstrument.java:121 | the 32-bit pattern of an `int` read unsigned is below 2^32, and equals the value when it is non-negative |
| JavaTypes.Signed | javafl/JavaAflInstrument.java:121 | reading a 32-bit pattern back as an `int` gives the pattern itself below 2^31 |
| JavaTypes.XorBelow | javafl/JavaAflInstrument.java:121 | XOR of two numbers below 2^k stays below 2^k |
| JavaTypes.Shr1 | javafl/JavaAflInstrument.java:141 | `x >> 1` is `2r = x` or `2r + 1 = x`: rounding toward minus infinity |
| JavaTypes.XorStaysInMap | javafl/JavaAflInstrument.java:112-121 | the tuple index of a location and a previous location inside the map stays inside the 65536-entry map |
| JavaTypes.XorZero | javafl/JavaAflInstrument.java:118-121 | with `prev_location` still 0 the first edge lands on the location itself |
| Bytecode.RecordBlock | javafl/JavaAflInstrument.java:109-144 | `_aflMaybeLog` emits exactly 12 instructions |
| Bytecode.RecordEffect | javafl/JavaAflInstrument.java:113-143 | one record adds one to the tuple's slot, with byte wrap-around from 127 to -128, leaves every other slot alone and sets `prev_location` to `id >> 1` |
| Bytecode.RecordBlockSemantics | javafl/JavaAflInstrument.java:109-144 | the emitted block, run on any operand stack, does exactly `RecordEffect` and leaves the stack as it was; with the map nulled it throws a null-pointer exception, with an index outside the map an index exception |
| Bytecode.RecordBlockPush | javafl/JavaAflInstrument.java:113-118 | the first three instructions push the map reference, the location and `prev_location` |
| Bytecode.RecordBlockIndex | javafl/JavaAflInstrument.java:119-124 | IXOR and DUP2 leave map reference and tuple index twice |
| Bytecode.RecordBlockLoad | javafl/JavaAflInstrument.java:125-132 | BALOAD, ICONST_1, IADD give the slot plus one as an `int` |
| Bytecode.RecordBlockStore | javafl/JavaAflInstrument.java:133-143 | I2B, BASTORE and the `prev_location` store write the narrowed value and the shifted location |
| Bytecode.LiftAllAnnotations | javafl/JavaAflInstrument.java:191-200 | annotations are never forwarded |
| Bytecode.EraseRecord | javafl/JavaAflInstrument.java:109-144 | erasing removes a whole record block |
| Bytecode.CountRecordBlock | javafl/JavaAflInstrument.java:109-144 | a record block holds one `prev_location` write and no method call |
| Bytecode.ControlRecordedAppend | javafl/JavaAflInstrument.java:163-173 | "every jump and label carries its record block" survives appending a piece with that shape |
| Bytecode.ReturnsHookedAppend | javafl/JavaAflInstrument.java:175-189 | "every `RETURN` is preceded by `_after_main`" survives appending a piece with that shape |
| Bytecode.EdgeShape | javafl/JavaAflInstrument.java:163-173 | a jump or label followed by its record block has both shapes |
| ClassFiles.Annots | javafl/JavaAflInstrument.java:191-200 | one `visitAnnotation` event per annotation descriptor, in order |
| ClassFiles.DescsOfAnnots | javafl/JavaAflInstrument.java:191-200 | the descriptors can be read back from the events |
| ClassFiles.MarkerBytesAreText | javafl/JavaAflInstrument.java:263 | `getBytes()` of the marker is its 35 ASCII characters, none of them zero |
| ClassFiles.ItemSizeIsMarkerLength | javafl/JavaAflInstrument.java:266-269 | the signed-byte length computation reads 35 only from the bytes 0x00 0x23 |
| ClassFiles.MarkerConstantIsMarkerItem | javafl/JavaAfl.java:25-26 | a class whose pool holds the marker as a UTF-8 constant carries a marker item |
| MethodRewrite.LocationId | javafl/JavaAflInstrument.java:112 | `nextInt(map.length)` gives an identifier inside the map: the draw modulo 65536 |
| MethodRewrite.RunAnnotations | javafl/JavaAflInstrument.java:191-200 | annotations only set the custom-init flag, and set it exactly when one is `javafl.CustomInit` |
| MethodRewrite.ChunkCounts | javafl/JavaAflInstrument.java:146-189 | per event: one `prev_location` write per record, the start hook only at the code start of an entry point without custom init, the end hook only before an entry point's `RETURN` |
| MethodRewrite.CodeStep | javafl/JavaAflInstrument.java:146-161 | `visitCode` forwards the code marker, then `_before_main` when due, then a record exactly when the draw modulo 100 is below the ratio, taking one or two draws |
| MethodRewrite.RunBodyCounts | javafl/JavaAflInstrument.java:163-189 | a body only appends, takes one draw and counts one location per jump and label, and adds one end hook per `RETURN` of an entry point |
| MethodRewrite.RunBodyErase | javafl/JavaAflInstrument.java:163-189 | erasing what a body added gives back the body as a copying visitor forwards it |
| MethodRewrite.RunBodyShape | javafl/JavaAflInstrument.java:163-189 | a body keeps every jump and label recorded and, in an entry point, every `RETURN` hooked |
| MethodRewrite.RunIsRewriteMethod | javafl/JavaAflInstrument.java:146-200 | a method's event stream runs as annotations, then code start, then body |
| MethodRewrite.MethodCounts | javafl/JavaAflInstrument.java:146-189 | locations and `prev_location` writes grow by one per jump and label plus one for the entry record; an entry point gets one end hook per `RETURN` |
| MethodRewrite.MethodEntryHook | javafl/JavaAflInstrument.java:146-157 | `_before_main` follows the code marker exactly for an entry point without custom init, and appears nowhere else |
| MethodRewrite.MethodErase | javafl/JavaAflInstrument.java:146-189 | erasing the inserted code gives back the method's code exactly |
| MethodRewrite.MethodShape | javafl/JavaAflInstrument.java:163-189 | rewriting keeps every jump and label recorded and every `RETURN` of an entry point hooked |
| MethodRewrite.EntryGateBounds | javafl/JavaAflInstrument.java:158 | a ratio of 0 never gives the entry record, 100 always does |
| MethodRewrite.MethodOutput | javafl/JavaAflInstrument.java:88-201 | everything about one method from a fresh visitor: locations equal record blocks, erasure gives back the code, both shapes, `_before_main` exactly once and first for an entry point with code and no custom init, no hooks elsewhere, nothing for a method without code |
| MethodRewrite.MethodWithCode | javafl/JavaAflInstrument.java:146-189 | the same facts for a method with code |
| Instrument.Random.NextInt | javafl/JavaAflInstrument.java:112 | `nextInt(bound)` is the next draw modulo the bound and advances the stream by one |
| Instrument.InstrumentingMethodVisitor.AflMaybeLog | javafl/JavaAflInstrument.java:109-144 | one location counted, one draw taken, its record block appended |
| Instrument.InstrumentingMethodVisitor.VisitCode | javafl/JavaAflInstrument.java:146-161 | the visitor's state moves exactly as `Step` on the code start says |
| Instrument.InstrumentingMethodVisitor.VisitJumpInsn | javafl/JavaAflInstrument.java:163-167 | the jump is forwarded, then recorded, as `Step` says |
| Instrument.InstrumentingMethodVisitor.VisitLabel | javafl/JavaAflInstrument.java:169-173 | the label is forwarded, then recorded, as `Step` says |
| Instrument.InstrumentingMethodVisitor.VisitInsn | javafl/JavaAflInstrument.java:175-189 | `_after_main` goes before an entry point's `RETURN`, as `Step` says |
| Instrument.InstrumentingMethodVisitor.VisitAnnotation | javafl/JavaAflInstrument.java:191-200 | only the custom-init annotation changes anything, as `Step` says |
| Instrument.InstrumentingMethodVisitor.VisitEvents | javafl/JavaAflInstrument.java:88-201 | a whole event stream moves the visitor as `Run` says |
| Instrument.EntryPointFlags | javafl/JavaAflInstrument.java:236-237 | a method is an entry point iff it is named `main` and public or static |
| Instrument.InstrumentingClassVisitor.VisitMethod | javafl/JavaAflInstrument.java:220-255 | a fresh method visitor sharing the class's generator and totals, flagged as entry point per the test |
| Instrument.InstrumentingClassVisitor.Accept | javafl/JavaAflInstrument.java:203-256 | the walk over the methods gives the outputs, draws and counter of `VisitAll` |
| Instrument.VisitAllFacts | javafl/JavaAflInstrument.java:203-256 | one rewritten output per method, and the location counter grows by exactly their record blocks |
| Instrument.VisitAllCounts | javafl/JavaAflInstrument.java:203-256 | locations minus record blocks is preserved through the class |
| Instrument.VisitAllRewritten | javafl/JavaAflInstrument.java:203-256 | every method's output has the rewritten form |
| Instrument.ScanFromMeans | javafl/JavaAflInstrument.java:258-281 | a true scan found a marker item; a missed marker item is preceded by an item that overruns the end |
| Instrument.NoOverrunBefore | javafl/JavaAflInstrument.java:264-274 | on a class reader's item table nothing before a non-zero marker item overruns the end |
| Instrument.ScanExact | javafl/JavaAflInstrument.java:258-281 | on a class reader's item table (zero slots included) the scan is true iff a marker item exists |
| Instrument.IsInstrumented | javafl/JavaAflInstrument.java:258-281 | the loop computes the scan, which implies a marker item and, on a class reader's item table, is implied by one |
| Driver.LastSlash | javafl/JavaAflInstrument.java:372-377 | the last `/` of the name, or -1 when there is none |
| Driver.ParentDirSplit | javafl/JavaAflInstrument.java:372-377 | the output directory is the class name up to its last `/`, `""` for a top-level class |
| Driver.TryPassThrough | javafl/JavaAflInstrument.java:353-382 | a non-class name, an empty file or an unreadable class comes back unchanged with directory `""`; a class carrying the marker, on a class reader's item table, comes back unchanged with its directory and `total_classfiles` one lower |
| Driver.TryRetry | javafl/JavaAflInstrument.java:404-413 | a retryable failure carries the input bytes and leaves `total_classfiles` alone |
| Driver.TryWritten | javafl/JavaAflInstrument.java:383-406 | changed bytes are the writer's output from the rewritten methods, in the class's directory, with `total_locations` grown by their record blocks |
| Driver.LadderDescending | javafl/JavaAflInstrument.java:327 | the ratio ladder has 11 values, strictly decreasing |
| Driver.FirstBelowIsLargest | javafl/JavaAflInstrument.java:338-346 | on a descending list the first value below `r` is the largest one below it, one rung down |
| Driver.NextRatioFacts | javafl/JavaAflInstrument.java:327-346 | a positive ratio moves to the largest ladder value below it; 0 stays; at most 11 rungs lie below any ratio |
| Driver.LowerRatio | javafl/JavaAflInstrument.java:338-346 | the inner loop with its `break` computes `NextRatio` |
| Driver.RetryTurn | javafl/JavaAflInstrument.java:328-347 | one turn: a result ends the loop; a retryable failure restores `total_locations` and then gives up at ratio 0 or goes one rung down |
| Driver.RetryEnds | javafl/JavaAflInstrument.java:319-351 | from a ratio of 0 or more the loop ends before its bound, trying strictly descending ladder ratios, at most one more than the rungs below the start |
| Driver.RetryWithinTwelve | javafl/JavaAflInstrument.java:328-350 | with a ratio of 0 to 100 `instrument_class` returns within 12 attempts, so its closing assertion is unreachable |
| Driver.RetryLastAttempt | javafl/JavaAflInstrument.java:322-337 | earlier attempts leave no trace: the result and counters are the last attempt's from the entry counters, or the entry counters with the input at ratio 0 |
| Driver.TryAtKeeps | javafl/JavaAflInstrument.java:404-413 | every attempt keeps `total_classfiles` and the input on a retryable failure |
| Driver.RetrySame | javafl/JavaAflInstrument.java:328-347 | the loop depends only on what its attempts return |
| Driver.RetryDeterministic | javafl/JavaAflInstrument.java:384-389 | in deterministic mode the outcome does not depend on the unseeded generators |
| Driver.MarkedOutput | javafl/JavaAflInstrument.java:378-406 | a class an attempt rewrote is handed back unchanged by any later attempt, one class file fewer counted |
| Driver.SecondPass | javafl/JavaAflInstrument.java:319-406 | running `instrument_class` over its own output changes nothing, in one attempt, and is not counted again |
| Driver.RetryResultIsAttempt | javafl/JavaAflInstrument.java:319-351 | changed bytes returned by the loop are those of one of its attempts from the entry counters |
| Driver.RetryFirstDone | javafl/JavaAflInstrument.java:328-330 | a first attempt that returns ends the loop |
| Driver.Instrumenter.TryInstrumentClass | javafl/JavaAflInstrument.java:353-414 | result and counters are those of `TrySpec` |
| Driver.Instrumenter.InstrumentClass | javafl/JavaAflInstrument.java:319-351 | the loop returns `RetrySpec`'s class, or reaches the closing assertion when it is exhausted, with its counters |
| ProtoRewrite.ProtoRunAnnotations | JavaAflInstrument.java:115-124 | annotations only set `_has_custom_init`, exactly when one is `JavaAfl.CustomInit` |
| ProtoRewrite.ProtoBodyStep | JavaAflInstrument.java:87-113 | one body event only appends; one draw, one location and one record per jump and label; the end hook only before `main`'s `RETURN` |
| ProtoRewrite.ProtoRunBodyCounts | JavaAflInstrument.java:87-113 | the same summed over a body |
| ProtoRewrite.ProtoRunBodyErase | JavaAflInstrument.java:87-113 | erasing what a body added gives back the body |
| ProtoRewrite.ProtoRunBodyShape | JavaAflInstrument.java:87-113 | a body keeps jumps and labels recorded and `main`'s returns hooked |
| ProtoRewrite.ProtoCodeStep | JavaAflInstrument.java:72-85 | `visitCode` forwards the code marker, `_before_main` for `main` without custom init, then always one record |
| ProtoRewrite.ProtoRunIsRewriteMethod | JavaAflInstrument.java:72-124 | a method's events run as annotations, code start, body |
| ProtoRewrite.ProtoMethodCounts | JavaAflInstrument.java:72-113 | a method with code counts one location and one record per jump and label plus one |
| ProtoRewrite.ProtoMethodErase | JavaAflInstrument.java:72-113 | erasing the inserted code gives back the method's code |
| ProtoRewrite.ProtoMethodShape | JavaAflInstrument.java:87-113 | jumps and labels recorded, `main`'s returns hooked |
| ProtoRewrite.ProtoMethodWithCode | JavaAflInstrument.java:72-124 | the per-method facts for a method with code |
| ProtoRewrite.ProtoMethodOutput | JavaAflInstrument.java:21-125 | from a fresh visitor: locations equal records, exactly `1 + jumps + labels` of them for a method with code, erasure gives back the code, both shapes, the start hook once and first for a `main` without the annotation, the first draw's record right after it, nothing for a method without code |
| ProtoRewrite.ProtoMethodNoCode | JavaAflInstrument.java:115-124 | a method without code forwards nothing and counts nothing |
| ProtoInstrument.ProtoEntryPointFlags | JavaAflInstrument.java:152-153 | the prototype's entry-point test: `main` and public or static |
| ProtoInstrument.ProtoMethodVisitor.AflMaybeLog | JavaAflInstrument.java:35-70 | one location, one draw of the visitor's own generator, one record block |
| ProtoInstrument.ProtoMethodVisitor.VisitCode | JavaAflInstrument.java:72-85 | moves as `ProtoStep` on the code start |
| ProtoInstrument.ProtoMethodVisitor.VisitJumpInsn | JavaAflInstrument.java:87-91 | moves as `ProtoStep` on a jump |
| ProtoInstrument.ProtoMethodVisitor.VisitLabel | JavaAflInstrument.java:93-97 | moves as `ProtoStep` on a label |
| ProtoInstrument.ProtoMethodVisitor.VisitInsn | JavaAflInstrument.java:99-113 | moves as `ProtoStep` on an instruction |
| ProtoInstrument.ProtoMethodVisitor.VisitAnnotation | JavaAflInstrument.java:115-124 | moves as `ProtoStep` on an annotation |
| ProtoInstrument.ProtoMethodVisitor.VisitEvents | JavaAflInstrument.java:21-125 | a whole stream moves as `ProtoRun` |
| ProtoInstrument.ProtoClassVisitor.VisitMethod | JavaAflInstrument.java:137-169 | a fresh visitor with a new generator, flagged per the entry-point test |
| ProtoInstrument.ProtoClassVisitor.Accept | JavaAflInstrument.java:127-170 | the walk gives the outputs, generator count and counter of `ProtoVisitAll` |
| ProtoInstrument.ProtoVisitAllCounts | JavaAflInstrument.java:127-170 | one generator and one output per method; `total_locations` grows by the records of the methods with code |
| ProtoInstrument.ProtoVisitAllCreated | JavaAflInstrument.java:31 | one new `Random` per visited method |
| ProtoInstrument.ProtoVisitOneRewritten | JavaAflInstrument.java:137-169 | the next method's output is rewritten from the next generator |
| ProtoInstrument.ProtoVisitAllRewritten | JavaAflInstrument.java:127-170 | every method's output is rewritten, the `k`-th from generator `created + k` |
| ProtoInstrument.ProtoVisitAllFacts | JavaAflInstrument.java:127-170 | both of the above together |
| ProtoInstrument.CopyOfRange | JavaAflInstrument.java:184-185 | `Arrays.copyOfRange` copies the range, padding with zeros past the end |
| ProtoInstrument.CopyIsMarker | JavaAflInstrument.java:180-187 | for an item declaring length 35 the padded copy is the marker iff the marker is really there |
| ProtoInstrument.HasInstrumentationFromMeans | JavaAflInstrument.java:172-191 | the scan is true iff some item from `i` on is the marker |
| ProtoInstrument.HasInstrumentation | JavaAflInstrument.java:172-191 | the loop computes the scan and answers iff a marker item exists |
| ProtoInstrument.ScansAgree | JavaAflInstrument.java:172-191 | whatever the current scan finds the prototype finds; on a class reader's item table they agree |
| ProtoInstrument.ProtoFileSkips | JavaAflInstrument.java:203-206 | a marked class is left untouched and nothing is counted |
| ProtoInstrument.ProtoFileOutcome | JavaAflInstrument.java:207-214 | an unmarked class has its file overwritten with the writer's output from the rewritten methods, and the counters move by the records of its methods |
| ProtoInstrument.ProtoFileRewrites | JavaAflInstrument.java:207-214 | and every method is rewritten from its own generator |
| ProtoInstrument.ProtoFileMarks | JavaAflInstrument.java:200-215 | after one iteration the file it handled is marked, and marked files stay marked |
| ProtoInstrument.ProtoFilesMark | JavaAflInstrument.java:200-215 | a run that finishes leaves every argument marked |
| ProtoInstrument.ProtoFilesOnMarked | JavaAflInstrument.java:200-206 | over marked files the loop changes nothing and finishes |
| ProtoInstrument.ProtoSecondPass | JavaAflInstrument.java:193-216 | running the prototype again over its own output changes no file and counts nothing |
| ProtoInstrument.ProtoInstrumenter.InstrumentFile | JavaAflInstrument.java:200-215 | one iteration moves the tool as `ProtoFile` says, failing exactly when it throws |
| ProtoInstrument.ProtoInstrumenter.InstrumentFiles | JavaAflInstrument.java:193-216 | `main` moves the tool and ends as `ProtoMain` says |
| Protocol.ModeSelection | javafl/JavaAfl.java:353-405 | results reported iff the shared-memory bit is set; no mode without the forkserver bit; forkserver mode iff persistence is not asked for or the forkserver is forced, surrogate mode otherwise, never both; a new surrogate starts the monitor and logs its natives |
| Protocol.ReportChildOk | javafl/JavaAfl.java:470-492 | one ok report and nothing else changes |
| Protocol.PersistentLoop | javafl/JavaAfl.java:442-459 | an armed finished loop answers false; the first call arms it and keeps going, persistently only when allowed; later persistent calls report and go on |
| Protocol.PersistentLoopN | javafl/JavaAfl.java:461-468 | the count grows by one; the answer is the plain loop's answer and not the last iteration; at most one report |
| Protocol.ResetLoop | javafl/JavaAfl.java:436-440 | count 0, loop disarmed, `_run_persistent` kept |
| Protocol.SurrogateLoop | javafl/JavaAfl.java:340-351 | outside surrogate mode false and no change; in it the loop is reset, one ok report, true |
| Protocol.CheckExit | javafl/JavaAfl.java:171-187 | surrogate mode throws; otherwise an ok report, and in forkserver mode a forced exit with the status |
| Protocol.AfterMain | javafl/JavaAfl.java:407-423 | an ok report iff results are wanted, a forced exit with 0 iff in forkserver mode |
| Protocol.SurrogateDeath | javafl/JavaAfl.java:278-284 | the recorded status is reported, the map restored, a new surrogate spawned, nothing else |
| Protocol.HandleException | javafl/JavaAfl.java:287-338 | no results wanted: forced exit with 1; a dead surrogate: the death handler and true; otherwise an uncaught report, then true in surrogate mode or a forced exit with 1 |
| Protocol.MonitorStep | javafl/JavaAfl.java:215-248 | the monitor records the status, clears the pid and nulls the map, logging nothing |
| Protocol.InitDeferred | javafl/JavaAfl.java:425-434 | `_init_deferred` changes nothing in any mode |
| Protocol.UnboundedLoop | javafl/JavaAfl.java:442-459 | without persistence true once then false, no reports; with it true every time, a report on every call after the first |
| Protocol.CeilingLoop | javafl/JavaAfl.java:461-468 | with persistence call `i` of `loop(n)` answers true iff `i < n`, with a report on each call after the first |
| Protocol.CeilingLoopOnce | javafl/JavaAfl.java:461-468 | without persistence only the first call can answer true, when `n > 1`; no reports |
| Protocol.CeilingLast | javafl/JavaAfl.java:461-468 | the `n`-th call is the first false one, after `n - 1` reports |
| Protocol.MonitorThenDeath | javafl/JavaAfl.java:215-284 | the monitor's step then the death handler: map back, exactly one killed report with the status |
| Protocol.KilledRound | javafl/JavaAfl.java:287-338 | after the monitor fires, `handle_exception` reports the death and not an uncaught exception, restores the map, keeps the loop running |
| Protocol.ResetKeepsPersistence | javafl/JavaAfl.java:340-351 | after a persistent round, the surrogate loop and the next persistent loop call send two reports in a row |
| Runtime.JavaAfl.BeforeMain | javafl/JavaAfl.java:353-405 | the fields move exactly as `Protocol.BeforeMain` |
| Runtime.JavaAfl.ChooseMode | javafl/JavaAfl.java:389-404 | the fields move exactly as `Protocol.ChooseMode` |
| Runtime.JavaAfl.ReportChildOkStatus | javafl/JavaAfl.java:470-492 | as `Protocol.ReportChildOk` |
| Runtime.JavaAfl.ForceExitForkedChild | javafl/JavaAfl.java:99 | only the native call is logged |
| Runtime.JavaAfl.CheckExit | javafl/JavaAfl.java:171-187 | as `Protocol.CheckExit` |
| Runtime.JavaAfl.PersistentModeLoop | javafl/JavaAfl.java:442-459 | as `Protocol.PersistentLoop` |
| Runtime.JavaAfl.PersistentModeLoopN | javafl/JavaAfl.java:461-468 | as `Protocol.PersistentLoopN` |
| Runtime.JavaAfl.PersistentModeLoopReset | javafl/JavaAfl.java:436-440 | as `Protocol.ResetLoop` |
| Runtime.JavaAfl.SurrogateModeLoop | javafl/JavaAfl.java:340-351 | as `Protocol.SurrogateLoop` |
| Runtime.JavaAfl.AfterMain | javafl/JavaAfl.java:407-423 | as `Protocol.AfterMain` |
| Runtime.JavaAfl.InitDeferred | javafl/JavaAfl.java:425-434 | as `Protocol.InitDeferred` |
| Runtime.JavaAfl.HandleForkSurrogateDeath | javafl/JavaAfl.java:278-284 | as `Protocol.SurrogateDeath` |
| Runtime.JavaAfl.HandleException | javafl/JavaAfl.java:287-338 | as `Protocol.HandleException` |
| Runtime.JavaAfl.MonitorStep | javafl/JavaAfl.java:215-248 | as `Protocol.MonitorStep` |
| Runtime.JavaAfl.Record | javafl/JavaAflInstrument.java:109-144 | the emitted record block run on `map`: a null map throws a NullPointerException and an out-of-range tuple index an index exception, neither writing anything; otherwise the map and `prev_location` become `RecordEffect` of the old ones |
| Fuzz.FuzzLoopN | javafl/fuzz.java:91-98 | fewer than one iteration is refused with nothing changed; otherwise the runtime's ceilinged loop |
| Fuzz.FuzzCeiling | javafl/fuzz.java:91-98 | `n` calls of `fuzz.loop(n)` answer true `n - 1` times then false, with `n - 1` reports |
| Fuzz.Init | javafl/fuzz.java:47-50 | as `Protocol.InitDeferred` |
| Fuzz.Loop | javafl/fuzz.java:68-71 | as `Protocol.PersistentLoop` |
| Fuzz.LoopN | javafl/fuzz.java:91-98 | as `FuzzLoopN` |
| Fuzz.FuzzMarkerFound | javafl/fuzz.java:27-28 | the `fuzz` class is recognised as instrumented by the prototype always and by the current scan on a class reader's item table |
| Fuzz.FuzzClassIsSkipped | javafl/fuzz.java:27-28 | so the current rewriter hands the `fuzz` class back unchanged, one class file fewer counted |
| ProtoRuntime.ProtoInit | JavaAfl.java:65-70 | `_init` logs the native initialisation and installs the handler |
| ProtoRuntime.ProtoBeforeMain | JavaAfl.java:60-63 | `_before_main` initialises non-persistently |
| ProtoRuntime.ProtoUncaught | JavaAfl.java:10-14 | the handler logs the uncaught-exception native and changes nothing else |
| ProtoRuntime.ProtoAfterMain | JavaAfl.java:74 | the end hook logs its native and changes nothing else |
| ProtoRuntime.ProtoLoop | JavaAfl.java:87-105 | the first call reads the environment, initialises and answers true with count 1; later calls send the map when persistence is allowed and go on iff allowed and below the request |
| ProtoRuntime.ProtoLoopScenario | JavaAfl.java:87-105 | call `i` answers true iff `i` is 0 or persistence is allowed and `i < n`; the count ends at `min(k, max(1, n))` or 1; one map per persistent call after the first |
| ProtoRuntime.ProtoLoopBounded | JavaAfl.java:85-105 | over any number of calls the count never decreases and never passes `max(1, n)` |
| ProtoRuntime.ProtoJavaAfl.Init | JavaAfl.java:65-70 | as `ProtoInit` |
| ProtoRuntime.ProtoJavaAfl.BeforeMain | JavaAfl.java:60-63 | as `ProtoBeforeMain` |
| ProtoRuntime.ProtoJavaAfl.UserInit | JavaAfl.java:80-83 | the public `init()` does what `_before_main` does |
| ProtoRuntime.ProtoJavaAfl.HandleUncaughtException | JavaAfl.java:10-14 | as `ProtoUncaught` |
| ProtoRuntime.ProtoJavaAfl.AfterMain | JavaAfl.java:74 | as `ProtoAfterMain` |
| ProtoRuntime.ProtoJavaAfl.Loop | JavaAfl.java:87-105 | as `ProtoLoop` |
| ProtoRuntime.ProtoJavaAfl.Record | JavaAflInstrument.java:35-70 | the prototype's record block run on `map`: an out-of-range tuple index throws without writing; otherwise the map and `prev_location` become `RecordEffect` of the old ones |

## Left out

- The JNI side: `_jni_init`, the forkserver and surrogate natives, `_wait_for_fork_surrogate`, and the prototype's `_init_impl` and `_send_map`. Each is an entry in a log. What it answers is a parameter: the init flags, the new pid, the wait status.
- `_force_exit_forked_child` is taken to end the process, so no state after it is modelled. The C code of the current natives is not part of this model. The comment in `handle_exception` says that line is never reached.
- Static initialisers: extracting and loading the native library, allocating the map, and the semaphores. The map is a fresh array of 65536 bytes (`MapSize`).
- Threads, the two semaphores and `Thread.stop()`. The monitor's turn is one atomic step (`Protocol.MonitorStep`), and the main thread's abort is the caller's next call of `handle_exception`.
- The `InterruptedException` recovery paths in `_report_child_ok_status` and `handle_exception`. They are reached only by a thread interrupt, which the model has none of.
- `_reset_stdin`, the `System.err`/`System.out` messages, the stack-trace lookup of the caller's class (taken as a parameter) and `printStackTrace`.
- `String.hashCode` is computed over the string's characters, not over UTF-16 code units beyond the basic plane.
- `_is_surrogate_loop_initialized`, `_map_object`, `_prev_location_init` and `_get_map_memory_area` are never used by the code and are not modelled. `prev_location` is written only by the record blocks (`Record`).
- Java `assert` statements: in `_persistent_mode_loop(long)`, `_after_main` and the monitor they become preconditions.
- The bytecode library: class parsing, frame computation (`COMPUTE_FRAMES`), constant-pool writing, and the 64 KiB method size limit. These are oracle functions. For the reader's item offsets, "two bytes inside the file" is an assumption (`Driver.ReadOk`). The layout of the reader's item table (`ClassFiles.AsmLayout`) is a premise of the marker lemmas and part of `Driver.WritesMarker`, since the library's code is not part of this model.
- Jar files, directories and the `main` of the current rewriter: option parsing, environment ratios, output directory, `add_JavaAfl_to_*`. Only the per-class core (`try_instrument_class`, `instrument_class`) is modelled.
- The prototype reading a file that makes the class reader overflow on item offsets: this is treated as an exception that ends `main` (`Aborted`). Counters changed inside an `accept` that throws are not kept: on `Aborted` the tool state is not claimed.
- `java.util.Random` seeding: deterministic mode seeds from the input bytes, which the model names an attempt-independent stream. The linear congruential generator itself is not modelled.
- ProtoInstrument.ProtoVisitAllRewritten: states per method that every output is rewritten and recorded, but states the exact entry record block only per method (in `ProtoRewrite.ProtoMethodOutput`), not at class level.
- Driver.Counters: `total_locations` (javafl/JavaAflInstrument.java:47), `total_classfiles` (:49) and the prototype's `total_locations` (JavaAflInstrument.java:19) are Java `int`s, modelled as unbounded integers. Their wrap-around past 2^31 - 1 is not modelled.
- Driver.TrySpec: a failure inside `accept` keeps the locations of the methods visited in full (`acceptFailsAfter`). A failure in the middle of a method's code is not modelled. There `visitCode` may already have counted the entry record before the reader throws. ASM's parsing is not part of this model, so where it fails inside a method is not visible.
- MethodRewrite.MethodOutput, MethodRewrite.MethodErase, ProtoRewrite.ProtoMethodOutput and ProtoRewrite.ProtoMethodErase: a method's code is modelled as five kinds of event only: annotations, the code start, jumps, labels and zero-operand instructions. The visitors forward every other visitor call unchanged through `super`: field, method, local-variable, int-operand, type, constant, increment, switch and multi-array instructions, invokedynamic, try-catch blocks, frames and maximum sizes. None of these are represented, so `Erase` can treat every field access as the start of a record block and every call as a hook. These erasure and count statements therefore hold for code made of the five modelled events. A method that already calls `_before_main` or `_after_main` itself (test/RawAllLoop.java:23,39) is outside the model. The same limit applies to the "no hooks elsewhere" parts of `MethodRewrite.MethodEntryHook` and `MethodRewrite.ChunkCounts`.
- Driver.ParentDirSplit: the source takes `new File(name).getParentFile()`, which first collapses repeated `/` and drops a trailing `/`. The model splits the name at its last `/` as written. Class names are assumed to be valid internal names (section 4.2.1 of the Java Virtual Machine Specification), with no empty segments, and there the two agree. A name such as `a//B` or `C/` would differ.
- Protocol.PersistentLoopN: states the number of reports as "none or one" and leaves the exact one to `PersistentLoop`.
