/** The prototype rewriter, root-level JavaAflInstrument.java: its visitors as classes, the
    marker scan `has_instrumentation`, and the per-file loop of `main` that skips classes
    carrying the marker and rewrites and marks the others in place. The bytecode library
    and the files are oracles. */
module ProtoInstrument {
  import opened JavaTypes
  import opened Wrappers
  import opened Bytecode
  import opened ClassFiles
  import opened ProtoRewrite
  import MethodRewrite
  import Instrument

  /** The prototype's entry-point test: named `main` with `ACC_PUBLIC` or `ACC_STATIC`. */
  predicate ProtoIsEntryPoint(access: bv32, name: string)
  {
    name == "main" && access & (Instrument.ACC_STATIC | Instrument.ACC_PUBLIC) != 0
  }

  /** Either flag is enough. */
  lemma ProtoEntryPointFlags(access: bv32, name: string)
    ensures ProtoIsEntryPoint(access, name) <==>
      name == "main" && (access & Instrument.ACC_PUBLIC != 0 || access & Instrument.ACC_STATIC != 0)
  {
  }

  /** The prototype's static `total_locations`. */
  class ProtoTotals {
    var locations: int

    constructor ()
      ensures locations == 0
    {
      locations := 0;
    }
  }

  /** The prototype's `InstrumentingMethodVisitor`: each one creates its own `Random`. */
  class ProtoMethodVisitor {
    var out: seq<Instr>
    var hasCustomInit: bool
    const isMain: bool
    const random: Instrument.Random
    const totals: ProtoTotals

    ghost function State(): ProtoState
      reads this, random, totals
    {
      ProtoState(out, hasCustomInit, random.pos, totals.locations)
    }

    /** `draws` is what the new unseeded `Random` will produce. */
    constructor (isMain: bool, draws: Draws, totals: ProtoTotals)
      ensures this.isMain == isMain && this.totals == totals
      ensures fresh(random) && random.draws == draws
      ensures State() == ProtoState([], false, 0, totals.locations)
    {
      this.isMain := isMain;
      this.totals := totals;
      random := new Instrument.Random(draws);
      hasCustomInit := false;
      out := [];
    }

    method AflMaybeLog()
      modifies this, random, totals
      ensures out == old(out) + ProtoRecord(random.draws, old(random.pos))
      ensures random.pos == old(random.pos) + 1
      ensures totals.locations == old(totals.locations) + 1
      ensures hasCustomInit == old(hasCustomInit)
    {
      totals.locations := totals.locations + 1;
      var locationId := random.NextInt(MapSize);
      out := out + RecordBlock(ProtoOwner, locationId as Int32);
    }

    /** The start hook for `main` without custom init, then the entry record, always. */
    method VisitCode()
      modifies this, random, totals
      ensures State() == ProtoStep(isMain, random.draws, old(State()), Code)
    {
      out := out + [Start];
      if isMain && !hasCustomInit {
        out := out + [BeforeMainCall(ProtoOwner)];
      }
      AflMaybeLog();
    }

    method VisitJumpInsn(opcode: int, target: nat)
      modifies this, random, totals
      ensures State() == ProtoStep(isMain, random.draws, old(State()), Jump(opcode, target))
    {
      out := out + [JumpTo(opcode, target)];
      AflMaybeLog();
    }

    method VisitLabel(id: nat)
      modifies this, random, totals
      ensures State() == ProtoStep(isMain, random.draws, old(State()), Label(id))
    {
      out := out + [Mark(id)];
      AflMaybeLog();
    }

    method VisitInsn(opcode: int)
      modifies this
      ensures State() == ProtoStep(isMain, random.draws, old(State()), Insn(opcode))
    {
      if isMain && opcode == RETURN {
        out := out + [AfterMainCall(ProtoOwner)];
      }
      out := out + [Op(opcode)];
    }

    method VisitAnnotation(desc: string)
      modifies this
      ensures State() == ProtoStep(isMain, random.draws, old(State()), Annotation(desc))
    {
      if desc == ProtoCustomInitDesc {
        hasCustomInit := true;
      }
    }

    method VisitEvents(es: seq<Event>)
      modifies this, random, totals
      ensures State() == ProtoRun(isMain, random.draws, old(State()), es)
    {
      for i := 0 to |es|
        invariant State() == ProtoRun(isMain, random.draws, old(State()), es[..i])
      {
        assert es[..i + 1][..i] == es[..i];
        match es[i] {
          case Annotation(d) => VisitAnnotation(d);
          case Code => VisitCode();
          case Jump(op, t) => VisitJumpInsn(op, t);
          case Label(l) => VisitLabel(l);
          case Insn(op) => VisitInsn(op);
        }
      }
      assert es[..|es|] == es;
    }
  }

  // ---------------------------------------------------------------------------
  // A whole class.

  /** What the prototype's visitors have produced for a class so far: one output per method,
      how many `Random` objects were created, and `total_locations`. */
  datatype ProtoClassState = ProtoClassState(outs: seq<seq<Instr>>, created: nat, locations: int)

  /** One method through a fresh visitor whose `Random` is the `created`-th one made. */
  function ProtoVisitOne(entropy: nat -> Draws, cs: ProtoClassState, m: MethodDecl): ProtoClassState
  {
    var r := ProtoRun(ProtoIsEntryPoint(m.access, m.name), entropy(cs.created), ProtoState([], false, 0, cs.locations), Events(m));
    ProtoClassState(cs.outs + [r.out], cs.created + 1, r.locations)
  }

  function ProtoVisitAll(entropy: nat -> Draws, cs: ProtoClassState, ms: seq<MethodDecl>): ProtoClassState
  {
    if ms == [] then cs else ProtoVisitOne(entropy, ProtoVisitAll(entropy, cs, ms[..|ms| - 1]), ms[|ms| - 1])
  }

  /** The prototype's `InstrumentingClassVisitor`. */
  class ProtoClassVisitor {
    const totals: ProtoTotals

    constructor (totals: ProtoTotals)
      ensures this.totals == totals
    {
      this.totals := totals;
    }

    method VisitMethod(access: bv32, name: string, draws: Draws) returns (mv: ProtoMethodVisitor)
      ensures fresh(mv) && fresh(mv.random) && mv.totals == totals
      ensures mv.isMain == ProtoIsEntryPoint(access, name) && mv.random.draws == draws
      ensures mv.State() == ProtoState([], false, 0, totals.locations)
    {
      mv := new ProtoMethodVisitor(ProtoIsEntryPoint(access, name), draws, totals);
    }

    /** The class reader's walk over the methods; the `k`-th visitor's `Random` is number
        `created + k`. */
    method Accept(ms: seq<MethodDecl>, entropy: nat -> Draws, created: nat) returns (outs: seq<seq<Instr>>)
      modifies totals
      ensures var cs := ProtoVisitAll(entropy, ProtoClassState([], created, old(totals.locations)), ms);
        outs == cs.outs && totals.locations == cs.locations && cs.created == created + |ms|
    {
      ghost var cs0 := ProtoClassState([], created, totals.locations);
      outs := [];
      for i := 0 to |ms|
        invariant var cs := ProtoVisitAll(entropy, cs0, ms[..i]);
          outs == cs.outs && totals.locations == cs.locations && cs.created == created + i
      {
        var mv := VisitMethod(ms[i].access, ms[i].name, entropy(created + i));
        mv.VisitEvents(Events(ms[i]));
        outs := outs + [mv.out];
        assert ms[..i + 1][..i] == ms[..i];
      }
      assert ms[..|ms|] == ms;
    }
  }

  /** What every output of the prototype is like (see `ProtoMethodOutput`). */
  predicate ProtoRewrittenMethod(draws: Draws, m: MethodDecl, out: seq<Instr>)
  {
    var isMain := ProtoIsEntryPoint(m.access, m.name);
    var hook := isMain && m.code.Some? && ProtoCustomInitDesc !in m.annotations;
    var h := if hook then 1 else 0;
    && Erase(out) == LiftAll(Events(m))
    && ControlRecorded(out, ProtoOwner)
    && (isMain ==> ReturnsHooked(out, ProtoOwner))
    && (!isMain ==> Count(AfterMainCall(ProtoOwner), out) == 0)
    && Count(BeforeMainCall(ProtoOwner), out) == h
    && (m.code.Some? ==> |out| >= 13 + h)
    && (m.code.None? ==> out == [])
  }

  /** One rewritten output per method, the `k`-th drawn from `Random` number `created + k`. */
  predicate AllProtoRewritten(entropy: nat -> Draws, created: nat, ms: seq<MethodDecl>, outs: seq<seq<Instr>>)
  {
    |outs| == |ms| &&
    (ms != [] ==>
      AllProtoRewritten(entropy, created, ms[..|ms| - 1], outs[..|outs| - 1]) &&
      ProtoRewrittenMethod(entropy(created + |ms| - 1), ms[|ms| - 1], outs[|outs| - 1]))
  }

  /** The records the prototype emits for a class, counted from its methods alone: one entry
      record per method with code, plus one per jump and label. */
  function ProtoRecordsOf(ms: seq<MethodDecl>): nat
  {
    if ms == [] then 0
    else
      var m := ms[|ms| - 1];
      ProtoRecordsOf(ms[..|ms| - 1]) + (if m.code.Some? then 1 + MethodRewrite.Edges(m.code.value) else 0)
  }

  lemma {:induction false} ProtoVisitAllCounts(entropy: nat -> Draws, cs: ProtoClassState, ms: seq<MethodDecl>)
    requires forall k :: 0 <= k < |ms| ==> MethodOk(ms[k])
    ensures var r := ProtoVisitAll(entropy, cs, ms);
      && r.created == cs.created + |ms|
      && r.locations == cs.locations + ProtoRecordsOf(ms)
      && |r.outs| == |cs.outs| + |ms|
  {
    if ms != [] {
      var front := ms[..|ms| - 1];
      var m := ms[|ms| - 1];
      assert forall k :: 0 <= k < |front| ==> front[k] == ms[k];
      ProtoVisitAllCounts(entropy, cs, front);
      var p := ProtoVisitAll(entropy, cs, front);
      ProtoMethodOutput(ProtoIsEntryPoint(m.access, m.name), entropy(p.created), p.locations, m);
    }
  }

  lemma {:induction false} ProtoVisitAllRewritten(entropy: nat -> Draws, cs: ProtoClassState, ms: seq<MethodDecl>)
    requires cs.outs == [] && forall k :: 0 <= k < |ms| ==> MethodOk(ms[k])
    ensures AllProtoRewritten(entropy, cs.created, ms, ProtoVisitAll(entropy, cs, ms).outs)
  {
    if ms != [] {
      var front := ms[..|ms| - 1];
      var m := ms[|ms| - 1];
      assert forall k :: 0 <= k < |front| ==> front[k] == ms[k];
      ProtoVisitAllRewritten(entropy, cs, front);
      ProtoVisitAllCreated(entropy, cs, front);
      var p := ProtoVisitAll(entropy, cs, front);
      ProtoVisitOneRewritten(entropy, p, m, cs.created + |ms| - 1);
      var q := ProtoVisitOne(entropy, p, m);
      assert q.outs[..|q.outs| - 1] == p.outs;
    }
  }

  /** One `Random` per method. */
  lemma {:induction false} ProtoVisitAllCreated(entropy: nat -> Draws, cs: ProtoClassState, ms: seq<MethodDecl>)
    ensures ProtoVisitAll(entropy, cs, ms).created == cs.created + |ms|
  {
    if ms != [] {
      ProtoVisitAllCreated(entropy, cs, ms[..|ms| - 1]);
    }
  }

  lemma ProtoVisitOneRewritten(entropy: nat -> Draws, p: ProtoClassState, m: MethodDecl, n: nat)
    requires MethodOk(m) && p.created == n
    ensures var q := ProtoVisitOne(entropy, p, m);
      |q.outs| == |p.outs| + 1 && q.outs == p.outs + [q.outs[|q.outs| - 1]] &&
      ProtoRewrittenMethod(entropy(n), m, q.outs[|q.outs| - 1])
  {
    ProtoMethodOutput(ProtoIsEntryPoint(m.access, m.name), entropy(p.created), p.locations, m);
  }

  /** Visiting a class: one rewritten output per method, one new `Random` per method, and
      `total_locations` grows by the class's record count. */
  lemma ProtoVisitAllFacts(entropy: nat -> Draws, cs: ProtoClassState, ms: seq<MethodDecl>)
    requires cs.outs == [] && forall k :: 0 <= k < |ms| ==> MethodOk(ms[k])
    ensures var r := ProtoVisitAll(entropy, cs, ms);
      && r.created == cs.created + |ms|
      && r.locations == cs.locations + ProtoRecordsOf(ms)
      && AllProtoRewritten(entropy, cs.created, ms, r.outs)
  {
    ProtoVisitAllCounts(entropy, cs, ms);
    ProtoVisitAllRewritten(entropy, cs, ms);
  }

  // ---------------------------------------------------------------------------
  // The marker scan.

  /** `Arrays.copyOfRange(b, from, to)`: the bytes from `from`, padded with zeros past the end. */
  function CopyOfRange(b: seq<JByte>, from: int, to: int): (r: seq<JByte>)
    requires 0 <= from <= |b| && from <= to
    ensures |r| == to - from
    ensures forall k :: 0 <= k < |r| ==> r[k] == if from + k < |b| then b[from + k] else 0
  {
    if to <= |b| then b[from..to] else b[from..] + seq(to - |b|, _ => 0)
  }

  /** The scan of `has_instrumentation` from item `i` on. Unlike the current version it
      never stops early: an item whose bytes would run past the end is compared (padded) and
      the scan goes on. */
  function HasInstrumentationFrom(b: seq<JByte>, items: seq<int>, i: nat): bool
    requires ItemsInBounds(b, items) && i <= |items|
    decreases |items| - i
  {
    if i == |items| then false
    else
      var index := items[i];
      if ItemSize(b, index) != |MarkerBytes| then HasInstrumentationFrom(b, items, i + 1)
      else if CopyOfRange(b, index + 2, index + 2 + |MarkerBytes|) == MarkerBytes then true
      else HasInstrumentationFrom(b, items, i + 1)
  }

  /** For an item that declares the marker's length, the padded copy is the marker exactly
      when the marker is there: the marker has no zero byte to match the padding. */
  lemma CopyIsMarker(b: seq<JByte>, index: int)
    requires 0 <= index && index + 1 < |b| && ItemSize(b, index) == |MarkerBytes|
    ensures CopyOfRange(b, index + 2, index + 2 + |MarkerBytes|) == MarkerBytes <==> MarkerAt(b, index)
  {
    ItemSizeIsMarkerLength(b, index);
    MarkerBytesAreText();
    var c := CopyOfRange(b, index + 2, index + 2 + |MarkerBytes|);
    if index + 2 + |MarkerBytes| > |b| {
      var k := |b| - (index + 2);
      assert c[k] == 0 && MarkerBytes[k] != 0;
    } else {
      assert c == b[index + 2..index + 2 + |MarkerBytes|];
    }
  }

  lemma {:induction false} HasInstrumentationFromMeans(b: seq<JByte>, items: seq<int>, i: nat)
    requires ItemsInBounds(b, items) && i <= |items|
    decreases |items| - i
    ensures HasInstrumentationFrom(b, items, i) <==> exists k :: i <= k < |items| && MarkerAt(b, items[k])
  {
    if i < |items| {
      HasInstrumentationFromMeans(b, items, i + 1);
      ItemSizeIsMarkerLength(b, items[i]);
      if ItemSize(b, items[i]) == |MarkerBytes| {
        CopyIsMarker(b, items[i]);
      }
    }
  }

  /** `has_instrumentation`: true exactly when some constant-pool item is the marker. */
  method HasInstrumentation(b: seq<JByte>, items: seq<int>) returns (found: bool)
    requires ItemsInBounds(b, items)
    ensures found == HasInstrumentationFrom(b, items, 0)
    ensures found <==> HasMarkerItem(b, items)
  {
    HasInstrumentationFromMeans(b, items, 0);
    for i := 0 to |items|
      invariant HasInstrumentationFrom(b, items, 0) == HasInstrumentationFrom(b, items, i)
    {
      var index := items[i];
      var itemSize := b[index] as int * 256 + b[index + 1] as int;
      if itemSize != |MarkerBytes| {
        continue;
      }
      var value := CopyOfRange(b, index + 2, index + 2 + |MarkerBytes|);
      if value == MarkerBytes {
        return true;
      }
    }
    return false;
  }

  /** Where the two versions' scans part: on a class reader's item table they agree, and the
      current one never finds a marker the prototype misses. */
  lemma ScansAgree(b: seq<JByte>, items: seq<int>)
    requires ItemsInBounds(b, items)
    ensures Instrument.ScanFrom(b, items, 0) ==> HasInstrumentationFrom(b, items, 0)
    ensures AsmLayout(items) ==> Instrument.ScanFrom(b, items, 0) == HasInstrumentationFrom(b, items, 0)
  {
    HasInstrumentationFromMeans(b, items, 0);
    Instrument.ScanFromMeans(b, items, 0);
    if AsmLayout(items) {
      Instrument.ScanExact(b, items);
    }
  }

  // ---------------------------------------------------------------------------
  // The per-file loop of `main`.

  /** The bytecode library as the prototype uses it: `read` is the `ClassReader` constructor
      (`None` when it throws); `write` gives the writer's bytes after the rewritten methods
      and the marker constant went in (`None` when visiting or writing throws). */
  datatype ProtoAsm = ProtoAsm(
    read: seq<JByte> -> Option<ClassView>,
    write: (seq<JByte>, seq<seq<Instr>>) -> Option<seq<JByte>>)

  /** The files the tool reads and overwrites, how many `Random` objects it has created, and
      `total_locations`. */
  datatype ProtoTool = ProtoTool(disk: map<string, seq<JByte>>, created: nat, locations: int)

  /** How `main` ends: usage message, every file done, or an exception out of one. */
  datatype MainOutcome = Usage | AllDone | Aborted(filename: string)

  /** One iteration of `main`'s loop; `None` when it throws. A class whose item offsets lie
      outside its bytes (which a class reader never hands out) is taken as one the scan
      throws on. */
  function ProtoFile(asm: ProtoAsm, entropy: nat -> Draws, t: ProtoTool, f: string): Option<ProtoTool>
  {
    if f !in t.disk then None
    else
      var input := t.disk[f];
      match asm.read(input)
      case None => None
      case Some(v) =>
        if !ItemsInBounds(input, v.items) then None
        else if HasInstrumentationFrom(input, v.items, 0) then Some(t)
        else
          var cs := ProtoVisitAll(entropy, ProtoClassState([], t.created, t.locations), v.methods);
          match asm.write(input, cs.outs)
          case None => None
          case Some(w) => Some(ProtoTool(t.disk[f := w], cs.created, cs.locations))
  }

  /** The loop over the arguments, in order; an exception ends it. */
  function ProtoFiles(asm: ProtoAsm, entropy: nat -> Draws, t: ProtoTool, args: seq<string>): (ProtoTool, MainOutcome)
    decreases |args|
  {
    if args == [] then (t, AllDone)
    else
      match ProtoFile(asm, entropy, t, args[0])
      case None => (t, Aborted(args[0]))
      case Some(t1) => ProtoFiles(asm, entropy, t1, args[1..])
  }

  function ProtoMain(asm: ProtoAsm, entropy: nat -> Draws, t: ProtoTool, args: seq<string>): (ProtoTool, MainOutcome)
  {
    if |args| < 1 then (t, Usage) else ProtoFiles(asm, entropy, t, args)
  }

  /** A parsed class whose item offsets the scan can read and whose methods are well formed. */
  predicate ProtoReadOk(asm: ProtoAsm, input: seq<JByte>)
  {
    asm.read(input).Some? ==>
      var v := asm.read(input).value;
      ItemsInBounds(input, v.items) && forall k :: 0 <= k < |v.methods| ==> MethodOk(v.methods[k])
  }

  /** A file the scan recognises: it parses and one of its items is the marker. */
  predicate Marked(asm: ProtoAsm, b: seq<JByte>)
  {
    asm.read(b).Some? && ItemsInBounds(b, asm.read(b).value.items) && HasMarkerItem(b, asm.read(b).value.items)
  }

  predicate MarkedIn(asm: ProtoAsm, disk: map<string, seq<JByte>>, f: string)
  {
    f in disk && Marked(asm, disk[f])
  }

  /** The library as the second pass relies on it: what `writer.newUTF8(marker)` went into
      reads back with the marker among its items. */
  ghost predicate ProtoWritesMarker(asm: ProtoAsm)
  {
    forall input, outs :: asm.write(input, outs).Some? ==> Marked(asm, asm.write(input, outs).value)
  }

  /** A class that carries the marker is left untouched, and nothing is counted. */
  lemma ProtoFileSkips(asm: ProtoAsm, entropy: nat -> Draws, t: ProtoTool, f: string)
    requires MarkedIn(asm, t.disk, f)
    ensures ProtoFile(asm, entropy, t, f) == Some(t)
  {
    var v := asm.read(t.disk[f]).value;
    HasInstrumentationFromMeans(t.disk[f], v.items, 0);
  }

  /** A class without the marker is rewritten method by method and overwritten with the
      writer's bytes; `total_locations` grows by its record count. */
  lemma ProtoFileRewrites(asm: ProtoAsm, entropy: nat -> Draws, t: ProtoTool, f: string)
    requires f in t.disk && asm.read(t.disk[f]).Some? && ProtoReadOk(asm, t.disk[f])
    requires !HasMarkerItem(t.disk[f], asm.read(t.disk[f]).value.items)
    ensures var input := t.disk[f];
      var v := asm.read(input).value;
      var cs := ProtoVisitAll(entropy, ProtoClassState([], t.created, t.locations), v.methods);
      && AllProtoRewritten(entropy, t.created, v.methods, cs.outs)
      && ProtoFile(asm, entropy, t, f) ==
           (if asm.write(input, cs.outs).None? then None
            else Some(ProtoTool(t.disk[f := asm.write(input, cs.outs).value], t.created + |v.methods|,
                                t.locations + ProtoRecordsOf(v.methods))))
  {
    var v := asm.read(t.disk[f]).value;
    ProtoFileOutcome(asm, entropy, t, f);
    ProtoVisitAllRewritten(entropy, ProtoClassState([], t.created, t.locations), v.methods);
  }

  lemma ProtoFileOutcome(asm: ProtoAsm, entropy: nat -> Draws, t: ProtoTool, f: string)
    requires f in t.disk && asm.read(t.disk[f]).Some? && ProtoReadOk(asm, t.disk[f])
    requires !HasMarkerItem(t.disk[f], asm.read(t.disk[f]).value.items)
    ensures var input := t.disk[f];
      var v := asm.read(input).value;
      var cs := ProtoVisitAll(entropy, ProtoClassState([], t.created, t.locations), v.methods);
      ProtoFile(asm, entropy, t, f) ==
        (if asm.write(input, cs.outs).None? then None
         else Some(ProtoTool(t.disk[f := asm.write(input, cs.outs).value], t.created + |v.methods|,
                             t.locations + ProtoRecordsOf(v.methods))))
  {
    var input := t.disk[f];
    var v := asm.read(input).value;
    HasInstrumentationFromMeans(input, v.items, 0);
    ProtoVisitAllCounts(entropy, ProtoClassState([], t.created, t.locations), v.methods);
  }

  /** After one iteration the file it handled is marked, and every marked file stays so. */
  lemma ProtoFileMarks(asm: ProtoAsm, entropy: nat -> Draws, t: ProtoTool, f: string, g: string)
    requires ProtoWritesMarker(asm) && ProtoFile(asm, entropy, t, f).Some?
    ensures MarkedIn(asm, ProtoFile(asm, entropy, t, f).value.disk, f)
    ensures MarkedIn(asm, t.disk, g) ==> MarkedIn(asm, ProtoFile(asm, entropy, t, f).value.disk, g)
  {
    var input := t.disk[f];
    var v := asm.read(input).value;
    HasInstrumentationFromMeans(input, v.items, 0);
    if !HasInstrumentationFrom(input, v.items, 0) {
      var cs := ProtoVisitAll(entropy, ProtoClassState([], t.created, t.locations), v.methods);
      assert Marked(asm, asm.write(input, cs.outs).value);
    }
  }

  /** A run over `args` that finishes leaves every argument marked, and every file that was
      marked before still marked. */
  lemma {:induction false} ProtoFilesMark(asm: ProtoAsm, entropy: nat -> Draws, t: ProtoTool, args: seq<string>, g: string)
    requires ProtoWritesMarker(asm) && ProtoFiles(asm, entropy, t, args).1 == AllDone
    decreases |args|
    ensures forall i :: 0 <= i < |args| ==> MarkedIn(asm, ProtoFiles(asm, entropy, t, args).0.disk, args[i])
    ensures MarkedIn(asm, t.disk, g) ==> MarkedIn(asm, ProtoFiles(asm, entropy, t, args).0.disk, g)
  {
    if args != [] {
      var t1 := ProtoFile(asm, entropy, t, args[0]).value;
      var fin := ProtoFiles(asm, entropy, t, args).0;
      assert fin == ProtoFiles(asm, entropy, t1, args[1..]).0;
      ProtoFileMarks(asm, entropy, t, args[0], g);
      ProtoFilesMark(asm, entropy, t1, args[1..], g);
      ProtoFilesMark(asm, entropy, t1, args[1..], args[0]);
      forall i | 0 <= i < |args|
        ensures MarkedIn(asm, fin.disk, args[i])
      {
        if i > 0 {
          assert args[i] == args[1..][i - 1];
        }
      }
    }
  }

  /** Over files that all carry the marker, the loop changes nothing and finishes. */
  lemma {:induction false} ProtoFilesOnMarked(asm: ProtoAsm, entropy: nat -> Draws, t: ProtoTool, args: seq<string>)
    requires forall i :: 0 <= i < |args| ==> MarkedIn(asm, t.disk, args[i])
    decreases |args|
    ensures ProtoFiles(asm, entropy, t, args) == (t, AllDone)
  {
    if args != [] {
      ProtoFileSkips(asm, entropy, t, args[0]);
      assert forall i :: 0 <= i < |args[1..]| ==> args[1..][i] == args[i + 1];
      ProtoFilesOnMarked(asm, entropy, t, args[1..]);
    }
  }

  /** Running the prototype again over the files of a run that finished changes no file and
      counts nothing: every file it rewrote now carries the marker. */
  lemma ProtoSecondPass(asm: ProtoAsm, entropy: nat -> Draws, entropy2: nat -> Draws, t: ProtoTool, args: seq<string>)
    requires ProtoWritesMarker(asm) && ProtoMain(asm, entropy, t, args).1 == AllDone
    ensures var t1 := ProtoMain(asm, entropy, t, args).0;
      ProtoMain(asm, entropy2, t1, args) == (t1, AllDone)
  {
    ProtoFilesMark(asm, entropy, t, args, "");
    ProtoFilesOnMarked(asm, entropy2, ProtoMain(asm, entropy, t, args).0, args);
  }

  /** The tool itself: `main`'s loop over its arguments. */
  class ProtoInstrumenter {
    const asm: ProtoAsm
    const entropy: nat -> Draws
    var disk: map<string, seq<JByte>>
    var created: nat
    const totals: ProtoTotals

    ghost function Tool(): ProtoTool
      reads this, totals
    {
      ProtoTool(disk, created, totals.locations)
    }

    constructor (asm: ProtoAsm, entropy: nat -> Draws, disk: map<string, seq<JByte>>)
      ensures this.asm == asm && this.entropy == entropy && Tool() == ProtoTool(disk, 0, 0)
      ensures fresh(totals)
    {
      this.asm := asm;
      this.entropy := entropy;
      this.disk := disk;
      created := 0;
      totals := new ProtoTotals();
    }

    /** One iteration: read the file, skip it if marked, else rewrite, mark and overwrite. */
    method InstrumentFile(f: string) returns (ok: bool)
      modifies this, totals
      ensures ok == ProtoFile(asm, entropy, old(Tool()), f).Some?
      ensures ok ==> Tool() == ProtoFile(asm, entropy, old(Tool()), f).value
      ensures !ok ==> disk == old(disk)
    {
      if f !in disk {
        return false;
      }
      var input := disk[f];
      var view := asm.read(input);
      if view.None? {
        return false;
      }
      var v := view.value;
      if !ItemsInBounds(input, v.items) {
        return false;
      }
      var marked := HasInstrumentation(input, v.items);
      if marked {
        return true;
      }
      var cv := new ProtoClassVisitor(totals);
      var outs := cv.Accept(v.methods, entropy, created);
      var bytes := asm.write(input, outs);
      if bytes.None? {
        return false;
      }
      disk := disk[f := bytes.value];
      created := created + |v.methods|;
      return true;
    }

    /** `main`: a usage message without arguments, otherwise each file in turn until one
        throws. */
    method InstrumentFiles(args: seq<string>) returns (outcome: MainOutcome)
      modifies this, totals
      ensures outcome == ProtoMain(asm, entropy, old(Tool()), args).1
      ensures disk == ProtoMain(asm, entropy, old(Tool()), args).0.disk
      ensures !outcome.Aborted? ==> Tool() == ProtoMain(asm, entropy, old(Tool()), args).0
    {
      if |args| < 1 {
        return Usage;
      }
      ghost var t0 := Tool();
      for i := 0 to |args|
        invariant ProtoFiles(asm, entropy, t0, args) == ProtoFiles(asm, entropy, Tool(), args[i..])
      {
        ghost var before := Tool();
        assert args[i..][1..] == args[i + 1..];
        var ok := InstrumentFile(args[i]);
        if !ok {
          assert ProtoFiles(asm, entropy, before, args[i..]) == (before, Aborted(args[i]));
          return Aborted(args[i]);
        }
      }
      assert args[|args|..] == [];
      return AllDone;
    }
  }
}
