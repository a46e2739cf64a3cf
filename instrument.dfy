/** The current rewriter, javafl/JavaAflInstrument.java: the method and class visitors, the
    marker scan `is_instrumented`, one rewriting attempt `try_instrument_class`, and the retry
    loop `instrument_class` that lowers the instrumentation ratio until the class fits. The
    bytecode library (class parsing, frame computation, class writing) is an oracle. */
module Instrument {
  import opened JavaTypes
  import opened Wrappers
  import opened Bytecode
  import opened ClassFiles
  import opened MethodRewrite

  const ACC_PUBLIC: bv32 := 0x0001
  const ACC_STATIC: bv32 := 0x0008

  /** `java.util.Random` as the rewriter uses it: each `nextInt(bound)` takes the next raw
      draw of the stream, reduced modulo the bound. */
  class Random {
    const draws: Draws
    var pos: nat

    constructor (draws: Draws)
      ensures this.draws == draws && pos == 0
    {
      this.draws := draws;
      pos := 0;
    }

    method NextInt(bound: int) returns (r: int)
      requires bound > 0
      modifies this
      ensures r == draws(old(pos)) % bound && 0 <= r < bound
      ensures pos == old(pos) + 1
    {
      r := draws(pos) % bound;
      pos := pos + 1;
    }
  }

  /** The static counters of the rewriter: `total_locations` and `total_classfiles`. */
  class Totals {
    var locations: int
    var classfiles: int

    constructor ()
      ensures locations == 0 && classfiles == 0
    {
      locations := 0;
      classfiles := 0;
    }
  }

  /** `InstrumentationOptions`. */
  datatype Options = Options(ratio: int, hasCustomInit: bool, deterministic: bool)

  /** `InstrumentingMethodVisitor`: forwards each call to the writer (`out` is what the
      writer's method visitor has received), inserting the coverage code. */
  class InstrumentingMethodVisitor {
    var out: seq<Instr>
    var hasCustomInit: bool
    const instrumentationRatio: int
    const isMain: bool
    const random: Random
    const totals: Totals

    ghost function Cfg(): MethodCfg
    {
      MethodCfg(instrumentationRatio, isMain, random.draws)
    }

    ghost function State(): VisitState
      reads this, random, totals
    {
      VisitState(out, hasCustomInit, random.pos, totals.locations)
    }

    constructor (random: Random, options: Options, isMain: bool, totals: Totals)
      ensures this.random == random && this.totals == totals && this.isMain == isMain
      ensures instrumentationRatio == options.ratio && hasCustomInit == options.hasCustomInit
      ensures out == []
    {
      this.random := random;
      this.totals := totals;
      this.isMain := isMain;
      instrumentationRatio := options.ratio;
      hasCustomInit := options.hasCustomInit;
      out := [];
    }

    /** `_aflMaybeLog`: count the location, draw its identifier, emit its record block. */
    method AflMaybeLog()
      modifies this, random, totals
      ensures out == old(out) + RecordBlock(Owner, LocationId(random.draws(old(random.pos))))
      ensures random.pos == old(random.pos) + 1
      ensures totals.locations == old(totals.locations) + 1
      ensures hasCustomInit == old(hasCustomInit) && totals.classfiles == old(totals.classfiles)
    {
      totals.locations := totals.locations + 1;
      var locationId := random.NextInt(MapSize);
      out := out + RecordBlock(Owner, locationId as Int32);
    }

    method VisitCode()
      modifies this, random, totals
      ensures State() == Step(Cfg(), old(State()), Code)
      ensures totals.classfiles == old(totals.classfiles)
    {
      ghost var s0 := State();
      out := out + [Start];
      if isMain && !hasCustomInit {
        out := out + [BeforeMainCall(Owner)];
      }
      ghost var s1 := State();
      var v := random.NextInt(100);
      if v < instrumentationRatio {
        AflMaybeLog();
      }
      CodeChunkParts(Cfg(), s0, s1.out, out);
    }

    method VisitJumpInsn(opcode: int, target: nat)
      modifies this, random, totals
      ensures State() == Step(Cfg(), old(State()), Jump(opcode, target))
      ensures totals.classfiles == old(totals.classfiles)
    {
      out := out + [JumpTo(opcode, target)];
      AflMaybeLog();
    }

    method VisitLabel(id: nat)
      modifies this, random, totals
      ensures State() == Step(Cfg(), old(State()), Label(id))
      ensures totals.classfiles == old(totals.classfiles)
    {
      out := out + [Mark(id)];
      AflMaybeLog();
    }

    method VisitInsn(opcode: int)
      modifies this
      ensures State() == Step(Cfg(), old(State()), Insn(opcode))
    {
      if isMain && opcode == RETURN {
        out := out + [AfterMainCall(Owner)];
      }
      out := out + [Op(opcode)];
    }

    /** Annotations are not forwarded; only the custom-init one is noted. */
    method VisitAnnotation(desc: string)
      modifies this
      ensures State() == Step(Cfg(), old(State()), Annotation(desc))
    {
      if desc == CustomInitDesc {
        hasCustomInit := true;
      }
    }

    /** The class reader's calls on this visitor for one method, in order. */
    method VisitEvents(es: seq<Event>)
      modifies this, random, totals
      ensures State() == Run(Cfg(), old(State()), es)
      ensures totals.classfiles == old(totals.classfiles)
    {
      for i := 0 to |es|
        invariant State() == Run(Cfg(), old(State()), es[..i])
        invariant totals.classfiles == old(totals.classfiles)
      {
        assert es[..i + 1][..i] == es[..i];
        match es[i] {
          case Annotation(d) => VisitAnnotation(d);
          case Code => VisitCode();
          case Jump(op, t) => VisitJumpInsn(op, t);
          case Label(l) => VisitLabel(l);
          case Insn(op) => VisitInsn(op);
        }
      }
      assert es[..|es|] == es;
    }
  }

  /** The entry-point test of `visitMethod`: named `main` and public or static. */
  predicate IsEntryPoint(access: bv32, name: string)
  {
    name == "main" && access & (ACC_STATIC | ACC_PUBLIC) != 0
  }

  /** Either flag is enough: the test is not "public and static". */
  lemma EntryPointFlags(access: bv32, name: string)
    ensures IsEntryPoint(access, name) <==>
      name == "main" && (access & ACC_PUBLIC != 0 || access & ACC_STATIC != 0)
  {
  }

  /** What the visitors have produced for a class so far: one output per visited method, the
      position in the shared random stream and the location counter. */
  datatype ClassState = ClassState(outs: seq<seq<Instr>>, pos: nat, locations: int)

  function MethodCfgOf(o: Options, draws: Draws, m: MethodDecl): MethodCfg
  {
    MethodCfg(o.ratio, IsEntryPoint(m.access, m.name), draws)
  }

  /** One method through its own fresh visitor, sharing the class's random stream. */
  function VisitOne(o: Options, draws: Draws, cs: ClassState, m: MethodDecl): ClassState
  {
    var r := Run(MethodCfgOf(o, draws, m), VisitState([], o.hasCustomInit, cs.pos, cs.locations), Events(m));
    ClassState(cs.outs + [r.out], r.pos, r.locations)
  }

  function VisitAll(o: Options, draws: Draws, cs: ClassState, ms: seq<MethodDecl>): ClassState
  {
    if ms == [] then cs else VisitOne(o, draws, VisitAll(o, draws, cs, ms[..|ms| - 1]), ms[|ms| - 1])
  }

  /** `InstrumentingClassVisitor`: every method gets a rewriting visitor over the class's
      one random stream; entry points get the hooks. */
  class InstrumentingClassVisitor {
    const random: Random
    const options: Options
    const totals: Totals

    constructor (random: Random, options: Options, totals: Totals)
      ensures this.random == random && this.options == options && this.totals == totals
    {
      this.random := random;
      this.options := options;
      this.totals := totals;
    }

    method VisitMethod(access: bv32, name: string) returns (mv: InstrumentingMethodVisitor)
      ensures fresh(mv) && mv.random == random && mv.totals == totals
      ensures mv.Cfg() == MethodCfg(options.ratio, IsEntryPoint(access, name), random.draws)
      ensures mv.out == [] && mv.hasCustomInit == options.hasCustomInit
    {
      mv := new InstrumentingMethodVisitor(random, options, IsEntryPoint(access, name), totals);
    }

    /** The class reader's walk over the methods, each through the visitor `visitMethod`
        hands out. */
    method Accept(ms: seq<MethodDecl>) returns (outs: seq<seq<Instr>>)
      modifies random, totals
      ensures var cs := VisitAll(options, random.draws, ClassState([], old(random.pos), old(totals.locations)), ms);
        outs == cs.outs && random.pos == cs.pos && totals.locations == cs.locations
      ensures totals.classfiles == old(totals.classfiles)
    {
      ghost var cs0 := ClassState([], random.pos, totals.locations);
      outs := [];
      for i := 0 to |ms|
        invariant var cs := VisitAll(options, random.draws, cs0, ms[..i]);
          outs == cs.outs && random.pos == cs.pos && totals.locations == cs.locations
        invariant totals.classfiles == old(totals.classfiles)
      {
        var mv := VisitMethod(ms[i].access, ms[i].name);
        mv.VisitEvents(Events(ms[i]));
        outs := outs + [mv.out];
        assert ms[..i + 1][..i] == ms[..i];
      }
      assert ms[..|ms|] == ms;
    }
  }

  /** What every visited method's output is like (see `MethodOutput`). */
  predicate RewrittenMethod(o: Options, m: MethodDecl, out: seq<Instr>)
  {
    var isMain := IsEntryPoint(m.access, m.name);
    var hook := isMain && m.code.Some? && !o.hasCustomInit && CustomInitDesc !in m.annotations;
    && Erase(out) == LiftAll(Events(m))
    && ControlRecorded(out, Owner)
    && (isMain ==> ReturnsHooked(out, Owner))
    && Count(BeforeMainCall(Owner), out) == (if hook then 1 else 0)
    && (hook ==> |out| >= 2 && out[0] == Start && out[1] == BeforeMainCall(Owner))
    && (!isMain ==> Count(AfterMainCall(Owner), out) == 0)
    && (m.code.None? ==> out == [])
  }

  /** Record blocks (one `prev_location` write each) over all outputs. */
  function RecordsIn(outs: seq<seq<Instr>>): nat
  {
    if outs == [] then 0 else RecordsIn(outs[..|outs| - 1]) + Count(PutPrev(Owner), outs[|outs| - 1])
  }

  /** One rewritten output per method, in order. */
  predicate AllRewritten(o: Options, ms: seq<MethodDecl>, outs: seq<seq<Instr>>)
  {
    |outs| == |ms| &&
    (ms != [] ==> AllRewritten(o, ms[..|ms| - 1], outs[..|outs| - 1]) && RewrittenMethod(o, ms[|ms| - 1], outs[|outs| - 1]))
  }

  /** `AllRewritten` pairs each method with the output at its own position. */
  lemma {:induction false} AllRewrittenAt(o: Options, ms: seq<MethodDecl>, outs: seq<seq<Instr>>, k: int)
    requires AllRewritten(o, ms, outs) && 0 <= k < |ms|
    ensures k < |outs| && RewrittenMethod(o, ms[k], outs[k])
  {
    if k < |ms| - 1 {
      AllRewrittenAt(o, ms[..|ms| - 1], outs[..|outs| - 1], k);
    }
  }

  /** Visiting a class's methods from a fresh class visitor gives one rewritten output per
      method, and the location counter grows by exactly the number of record blocks in them. */
  lemma VisitAllFacts(o: Options, draws: Draws, cs: ClassState, ms: seq<MethodDecl>)
    requires cs.outs == [] && forall k :: 0 <= k < |ms| ==> MethodOk(ms[k])
    ensures var r := VisitAll(o, draws, cs, ms);
      && cs.pos <= r.pos
      && r.locations == cs.locations + RecordsIn(r.outs)
      && AllRewritten(o, ms, r.outs)
  {
    VisitAllCounts(o, draws, cs, ms);
    VisitAllRewritten(o, draws, cs, ms);
  }

  lemma {:induction false} VisitAllCounts(o: Options, draws: Draws, cs: ClassState, ms: seq<MethodDecl>)
    requires forall k :: 0 <= k < |ms| ==> MethodOk(ms[k])
    ensures var r := VisitAll(o, draws, cs, ms);
      && cs.pos <= r.pos
      && r.locations - RecordsIn(r.outs) == cs.locations - RecordsIn(cs.outs)
  {
    if ms != [] {
      var front := ms[..|ms| - 1];
      assert forall k :: 0 <= k < |front| ==> front[k] == ms[k];
      VisitAllCounts(o, draws, cs, front);
      VisitOneCounts(o, draws, VisitAll(o, draws, cs, front), ms[|ms| - 1]);
    }
  }

  lemma {:induction false} VisitAllRewritten(o: Options, draws: Draws, cs: ClassState, ms: seq<MethodDecl>)
    requires cs.outs == [] && forall k :: 0 <= k < |ms| ==> MethodOk(ms[k])
    ensures AllRewritten(o, ms, VisitAll(o, draws, cs, ms).outs)
  {
    if ms != [] {
      var front := ms[..|ms| - 1];
      var m := ms[|ms| - 1];
      assert forall k :: 0 <= k < |front| ==> front[k] == ms[k];
      VisitAllRewritten(o, draws, cs, front);
      var p := VisitAll(o, draws, cs, front);
      VisitOneRewritten(o, draws, p, m);
      var q := VisitOne(o, draws, p, m);
      assert q.outs[..|q.outs| - 1] == p.outs;
    }
  }

  /** One more method: one more output, and the counter keeps pace with its record blocks. */
  lemma VisitOneCounts(o: Options, draws: Draws, p: ClassState, m: MethodDecl)
    requires MethodOk(m)
    ensures var q := VisitOne(o, draws, p, m);
      && q.outs == p.outs + [q.outs[|p.outs|]]
      && p.pos <= q.pos
      && q.locations - RecordsIn(q.outs) == p.locations - RecordsIn(p.outs)
  {
    MethodOutput(MethodCfgOf(o, draws, m), o.hasCustomInit, p.pos, p.locations, m);
    var q := VisitOne(o, draws, p, m);
    assert q.outs[..|q.outs| - 1] == p.outs;
  }

  /** One more method: its output is rewritten. */
  lemma VisitOneRewritten(o: Options, draws: Draws, p: ClassState, m: MethodDecl)
    requires MethodOk(m)
    ensures var q := VisitOne(o, draws, p, m);
      && q.outs == p.outs + [q.outs[|p.outs|]]
      && RewrittenMethod(o, m, q.outs[|p.outs|])
  {
    MethodOutput(MethodCfgOf(o, draws, m), o.hasCustomInit, p.pos, p.locations, m);
  }

  // ---------------------------------------------------------------------------
  // The marker scan.

  /** The scan of `is_instrumented` from item `i` on: an item whose length reads 35 is
      compared with the marker, and one whose bytes would run past the end ends the scan. */
  function ScanFrom(b: seq<JByte>, items: seq<int>, i: nat): bool
    requires ItemsInBounds(b, items) && i <= |items|
    decreases |items| - i
  {
    if i == |items| then false
    else
      var index := items[i];
      if ItemSize(b, index) != |MarkerBytes| then ScanFrom(b, items, i + 1)
      else if |b| < index + 2 + |MarkerBytes| then false
      else if b[index + 2..index + 2 + |MarkerBytes|] == MarkerBytes then true
      else ScanFrom(b, items, i + 1)
  }

  /** What the scan finds: a marker item; and it misses one only if some earlier item
      declares the marker's length but runs past the end of the class. */
  lemma {:induction false} ScanFromMeans(b: seq<JByte>, items: seq<int>, i: nat)
    requires ItemsInBounds(b, items) && i <= |items|
    decreases |items| - i
    ensures ScanFrom(b, items, i) ==> exists k :: i <= k < |items| && MarkerAt(b, items[k])
    ensures !ScanFrom(b, items, i) ==> forall k :: i <= k < |items| && MarkerAt(b, items[k]) ==>
      exists j :: i <= j < k && Overruns(b, items[j])
  {
    if i < |items| {
      ScanFromMeans(b, items, i + 1);
      ItemSizeIsMarkerLength(b, items[i]);
      if !ScanFrom(b, items, i) && |b| < items[i] + 2 + |MarkerBytes| && ItemSize(b, items[i]) == |MarkerBytes| {
        assert Overruns(b, items[i]);
      }
    }
  }

  /** In a class reader's item table no item before a non-zero marker item can overrun the
      end: a later non-zero offset is larger, and a zero slot cannot overrun once the class
      is long enough to hold a marker. */
  lemma NoOverrunBefore(b: seq<JByte>, items: seq<int>, k: int)
    requires ItemsInBounds(b, items) && AsmLayout(items)
    requires 0 <= k < |items| && items[k] != 0 && MarkerAt(b, items[k])
    ensures forall j :: 0 <= j < k ==> !Overruns(b, items[j])
  {
    forall j | 0 <= j < k
      ensures !Overruns(b, items[j])
    {
      assert items[j] < items[k];
    }
  }

  /** So on a class reader's item table the scan finds a marker exactly when there is one. */
  lemma ScanExact(b: seq<JByte>, items: seq<int>)
    requires ItemsInBounds(b, items) && AsmLayout(items)
    ensures ScanFrom(b, items, 0) <==> HasMarkerItem(b, items)
  {
    ScanFromMeans(b, items, 0);
    if HasMarkerItem(b, items) {
      var k :| 0 <= k < |items| && MarkerAt(b, items[k]);
      if items[k] == 0 {
        // slot 0 holds the same offset, and nothing comes before it
        assert MarkerAt(b, items[0]);
      } else {
        NoOverrunBefore(b, items, k);
      }
    }
  }

  /** `is_instrumented`. */
  method IsInstrumented(b: seq<JByte>, items: seq<int>) returns (found: bool)
    requires ItemsInBounds(b, items)
    ensures found == ScanFrom(b, items, 0)
    ensures found ==> HasMarkerItem(b, items)
    ensures AsmLayout(items) ==> (found <==> HasMarkerItem(b, items))
  {
    ScanFromMeans(b, items, 0);
    if AsmLayout(items) {
      ScanExact(b, items);
    }
    var i := 0;
    while i < |items|
      invariant 0 <= i <= |items|
      invariant ScanFrom(b, items, 0) == ScanFrom(b, items, i)
    {
      var index := items[i];
      var itemSize := b[index] as int * 256 + b[index + 1] as int;
      if itemSize != |MarkerBytes| {
        i := i + 1;
        continue;
      }
      var start := index + 2;
      var end := start + |MarkerBytes|;
      if |b| < end {
        return false;
      }
      var value := b[start..end];
      if value == MarkerBytes {
        return true;
      }
      i := i + 1;
    }
    return false;
  }
}
