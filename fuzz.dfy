/** javafl/fuzz.java: the user-facing entry points, each an argument check and a call into
    the runtime. */
module Fuzz {
  import opened JavaTypes
  import opened Wrappers
  import opened Protocol
  import opened ClassFiles
  import Runtime
  import Instrument
  import ProtoInstrument
  import Driver

  /** What `fuzz.loop(iterations)` gives back: an answer, or `IllegalArgumentException`. */
  datatype LoopAnswer = Answer(more: bool) | IllegalArgument

  /** `fuzz.loop(iterations)`: fewer than one iteration is refused before anything happens;
      otherwise it is the runtime's ceilinged loop. A positive ceiling must still be above the
      current iteration, as the runtime asserts. */
  function FuzzLoopN(s: Rt, n: Int64): (r: (Rt, LoopAnswer))
    requires n < 1 || s.iteration < n
    ensures n < 1 ==> r == (s, IllegalArgument)
    ensures 1 <= n ==> r.0 == PersistentLoopN(s, n).0 && r.1 == Answer(PersistentLoopN(s, n).1)
  {
    if n < 1 then (s, IllegalArgument)
    else
      var (s1, more) := PersistentLoopN(s, n);
      (s1, Answer(more))
  }

  /** `n` calls of `fuzz.loop(n)` on a fresh runtime with persistence answer true `n - 1` times
      and then false, reporting `n - 1` finished iterations; the guard never fires. */
  lemma FuzzCeiling(s: Rt, n: Int64)
    requires 1 <= n && s.iteration == 0 && !s.runPersistent && !s.loopInitialized && s.canRunPersistent
    ensures FuzzLoopN(s, n) == (PersistentLoopN(s, n).0, Answer(n > 1))
    ensures var (r, answers) := CeilingCalls(s, n, n as nat);
      (forall i :: 0 <= i < n as int - 1 ==> answers[i]) && !answers[n as int - 1] && r.log == s.log + Oks(n as int - 1)
  {
    CeilingLast(s, n);
  }

  /** `fuzz.init()`. */
  method Init(rt: Runtime.JavaAfl)
    requires rt.Valid()
    ensures rt.State() == InitDeferred(old(rt.State()))
  {
    rt.InitDeferred();
  }

  /** `fuzz.loop()`. */
  method Loop(rt: Runtime.JavaAfl) returns (more: bool)
    requires rt.Valid()
    modifies rt
    ensures rt.Valid() && (rt.State(), more) == PersistentLoop(old(rt.State()))
  {
    more := rt.PersistentModeLoop();
  }

  /** `fuzz.loop(iterations)`. */
  method LoopN(rt: Runtime.JavaAfl, iterations: Int64) returns (answer: LoopAnswer)
    requires rt.Valid() && (iterations < 1 || rt.iteration < iterations)
    modifies rt
    ensures rt.Valid() && (rt.State(), answer) == FuzzLoopN(old(rt.State()), iterations)
  {
    if iterations < 1 {
      return IllegalArgument;
    }
    var more := rt.PersistentModeLoopN(iterations);
    return Answer(more);
  }

  /** The `fuzz` class declares `INSTRUMENTATION_MARKER`, so the marker string is a UTF-8
      constant of its pool. The prototype's scan finds it wherever it sits; the current scan
      finds it on any item table a class reader builds. */
  lemma FuzzMarkerFound(b: seq<JByte>, items: seq<int>, at: int)
    requires ItemsInBounds(b, items)
    requires 0 <= at < |items| && 1 <= items[at] && items[at] - 1 + 38 <= |b|
    requires b[items[at] - 1..items[at] - 1 + 38] == Utf8Entry(MarkerBytes)
    ensures ProtoInstrument.HasInstrumentationFrom(b, items, 0)
    ensures AsmLayout(items) ==> Instrument.ScanFrom(b, items, 0)
  {
    MarkerConstantIsMarkerItem(b, items, at);
    ProtoInstrument.HasInstrumentationFromMeans(b, items, 0);
    if AsmLayout(items) {
      Instrument.ScanExact(b, items);
    }
  }

  /** So the current rewriter hands the `fuzz` class back unchanged, beside its parent
      directory, and counts one class file fewer. */
  lemma FuzzClassIsSkipped(asm: Driver.Asm, rng: Driver.RandomSource, input: seq<JByte>, filename: string,
                           o: Instrument.Options, attempt: nat, k: Driver.Counters, at: int)
    requires Driver.ReadOk(asm, input) && asm.read(input).Some? && Driver.EndsWith(filename, ".class")
    requires AsmLayout(asm.read(input).value.items)
    requires var items := asm.read(input).value.items;
      0 <= at < |items| && 1 <= items[at] && items[at] - 1 + 38 <= |input| &&
      input[items[at] - 1..items[at] - 1 + 38] == Utf8Entry(MarkerBytes)
    ensures Driver.TrySpec(asm, rng, input, filename, o, attempt, k) ==
      Driver.TryOutcome(Driver.Done(Driver.InstrumentedClass(Driver.ParentDir(asm.read(input).value.name), input)),
                        k.(classfiles := k.classfiles - 1))
  {
    MarkerConstantIsMarkerItem(input, asm.read(input).value.items, at);
    Driver.TryPassThrough(asm, rng, input, filename, o, attempt, k);
  }
}
