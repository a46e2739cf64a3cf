/** What the current rewriter's method visitor (`InstrumentingMethodVisitor` in
    javafl/JavaAflInstrument.java) does to one method, as a function of the event stream the
    class reader delivers, the method's configuration and the random draws it consumes. */
module MethodRewrite {
  import opened JavaTypes
  import opened Wrappers
  import opened Bytecode
  import opened ClassFiles

  /** The runtime class the emitted code refers to. */
  const Owner: string := "javafl/JavaAfl"

  /** The descriptor of the `javafl.CustomInit` annotation. */
  const CustomInitDesc: string := "Ljavafl/CustomInit;"

  /** An endless supply of raw random numbers. The k-th `nextInt(bound)` call made on one
      `Random` object returns `draws(k) % bound`. */
  type Draws = nat -> nat

  /** `nextInt(map.length)`: a location identifier inside the coverage map. */
  function LocationId(raw: nat): (id: Int32)
    ensures 0 <= id as int < MapSize
    ensures id as int == raw % MapSize
  {
    (raw % MapSize) as Int32
  }

  /** A method visitor's fixed settings: the instrumentation ratio it was given, whether the
      method is an entry point, and the random stream it shares with its class. */
  datatype MethodCfg = MethodCfg(ratio: int, isMain: bool, draws: Draws)

  /** What changes while a method is visited: the instructions forwarded to the writer, the
      custom-initialisation flag, how many draws have been taken from the shared stream, and
      the global location counter `total_locations`. */
  datatype VisitState = VisitState(out: seq<Instr>, customInit: bool, pos: nat, locations: int)

  /** `_random.nextInt(100) < _instrumentation_ratio` at the start of the code. */
  predicate EntryGate(c: MethodCfg, s: VisitState)
  {
    c.draws(s.pos) % 100 < c.ratio
  }

  /** Whether `visitCode` emits the `_before_main` call. */
  predicate EmitsBeforeMain(c: MethodCfg, s: VisitState)
  {
    c.isMain && !s.customInit
  }

  /** The instructions one event makes the visitor forward. */
  function Chunk(c: MethodCfg, s: VisitState, e: Event): seq<Instr>
  {
    match e
    case Annotation(_) => []
    case Code =>
      [Start]
      + (if EmitsBeforeMain(c, s) then [BeforeMainCall(Owner)] else [])
      + (if EntryGate(c, s) then RecordBlock(Owner, LocationId(c.draws(s.pos + 1))) else [])
    case Jump(op, t) => [JumpTo(op, t)] + RecordBlock(Owner, LocationId(c.draws(s.pos)))
    case Label(l) => [Mark(l)] + RecordBlock(Owner, LocationId(c.draws(s.pos)))
    case Insn(op) => (if c.isMain && op == RETURN then [AfterMainCall(Owner)] else []) + [Op(op)]
  }

  /** How many record blocks (`_aflMaybeLog` calls) one event causes. */
  function Records(c: MethodCfg, s: VisitState, e: Event): nat
  {
    match e
    case Code => if EntryGate(c, s) then 1 else 0
    case Jump(_, _) => 1
    case Label(_) => 1
    case _ => 0
  }

  /** One visitor callback. */
  function Step(c: MethodCfg, s: VisitState, e: Event): VisitState
  {
    VisitState(
      s.out + Chunk(c, s, e),
      s.customInit || (e.Annotation? && e.desc == CustomInitDesc),
      s.pos + (if e.Code? then 1 else 0) + Records(c, s, e),
      s.locations + Records(c, s, e))
  }

  /** The visitor after the whole stream `es`. */
  function Run(c: MethodCfg, s: VisitState, es: seq<Event>): VisitState
  {
    if es == [] then s else Step(c, Run(c, s, es[..|es| - 1]), es[|es| - 1])
  }

  /** Jumps and labels in `es`. */
  function Edges(es: seq<Event>): nat
  {
    if es == [] then 0 else Edges(es[..|es| - 1]) + (if es[|es| - 1].Jump? || es[|es| - 1].Label? then 1 else 0)
  }

  /** `RETURN` instructions in `es`. */
  function Returns(es: seq<Event>): nat
  {
    if es == [] then 0 else Returns(es[..|es| - 1]) + (if es[|es| - 1] == Insn(RETURN) then 1 else 0)
  }

  // ---------------------------------------------------------------------------

  lemma {:induction false} RunAppend(c: MethodCfg, s: VisitState, x: seq<Event>, y: seq<Event>)
    ensures Run(c, s, x + y) == Run(c, Run(c, s, x), y)
  {
    if y == [] {
      assert x + y == x;
    } else {
      assert (x + y)[..|x + y| - 1] == x + y[..|y| - 1];
      RunAppend(c, s, x, y[..|y| - 1]);
    }
  }

  /** Annotations only ever set the custom-initialisation flag, and they set it exactly when
      one of them is `javafl.CustomInit`. */
  lemma {:induction false} RunAnnotations(c: MethodCfg, s: VisitState, annots: seq<Event>)
    requires AllAnnotations(annots)
    ensures Run(c, s, annots) == s.(customInit := s.customInit || CustomInitDesc in Descs(annots))
  {
    if annots != [] {
      var front := annots[..|annots| - 1];
      assert AllAnnotations(front);
      RunAnnotations(c, s, front);
      assert Descs(annots) == Descs(front) + [annots[|annots| - 1].desc];
    }
  }

  /** Taking out what one event added leaves what a plain copying visitor forwards. */
  lemma ChunkErase(c: MethodCfg, s: VisitState, e: Event, y: seq<Instr>)
    ensures Erase(Chunk(c, s, e) + y) == Lift(e) + Erase(y)
  {
    match e
    case Annotation(_) =>
      assert Chunk(c, s, e) + y == y;
    case Code =>
      CodeChunkErase(c, s, y);
    case Jump(op, t) =>
      EdgeErase(JumpTo(op, t), LocationId(c.draws(s.pos)), y);
    case Label(l) =>
      EdgeErase(Mark(l), LocationId(c.draws(s.pos)), y);
    case Insn(op) =>
      EraseKeep(Op(op), y);
      if c.isMain && op == RETURN {
        assert Chunk(c, s, e) + y == [AfterMainCall(Owner)] + ([Op(op)] + y);
        EraseInvoke(AfterMainCall(Owner), [Op(op)] + y);
      } else {
        assert Chunk(c, s, e) + y == [Op(op)] + y;
      }
  }

  lemma CodeChunkErase(c: MethodCfg, s: VisitState, y: seq<Instr>)
    ensures Erase(Chunk(c, s, Code) + y) == [Start] + Erase(y)
  {
    var h := if EmitsBeforeMain(c, s) then [BeforeMainCall(Owner)] else [];
    var r := if EntryGate(c, s) then RecordBlock(Owner, LocationId(c.draws(s.pos + 1))) else [];
    assert Chunk(c, s, Code) + y == [Start] + (h + (r + y));
    EraseKeep(Start, h + (r + y));
    if h != [] {
      EraseInvoke(BeforeMainCall(Owner), r + y);
    } else {
      assert h + (r + y) == r + y;
    }
    if r != [] {
      EraseRecord(Owner, LocationId(c.draws(s.pos + 1)), y);
    } else {
      assert r + y == y;
    }
  }

  lemma EdgeErase(x: Instr, id: Int32, y: seq<Instr>)
    requires x.JumpTo? || x.Mark?
    ensures Erase([x] + RecordBlock(Owner, id) + y) == [x] + Erase(y)
  {
    assert [x] + RecordBlock(Owner, id) + y == [x] + (RecordBlock(Owner, id) + y);
    EraseKeep(x, RecordBlock(Owner, id) + y);
    EraseRecord(Owner, id, y);
  }

  /** What one event adds, counted: one `prev_location` write per record block, the start
      hook only at the start of an entry point without custom initialisation, and the end
      hook only before an entry point's `RETURN`. */
  lemma ChunkCounts(c: MethodCfg, s: VisitState, e: Event)
    ensures Count(PutPrev(Owner), Chunk(c, s, e)) == Records(c, s, e)
    ensures Count(BeforeMainCall(Owner), Chunk(c, s, e)) == if e.Code? && EmitsBeforeMain(c, s) then 1 else 0
    ensures Count(AfterMainCall(Owner), Chunk(c, s, e)) == if c.isMain && e == Insn(RETURN) then 1 else 0
  {
    ChunkCount(c, s, e, PutPrev(Owner));
    ChunkCount(c, s, e, BeforeMainCall(Owner));
    ChunkCount(c, s, e, AfterMainCall(Owner));
  }

  lemma ChunkCount(c: MethodCfg, s: VisitState, e: Event, x: Instr)
    requires x == PutPrev(Owner) || x == BeforeMainCall(Owner) || x == AfterMainCall(Owner)
    ensures Count(x, Chunk(c, s, e)) ==
      (if x == PutPrev(Owner) then Records(c, s, e)
       else if x == BeforeMainCall(Owner) then (if e.Code? && EmitsBeforeMain(c, s) then 1 else 0)
       else if c.isMain && e == Insn(RETURN) then 1 else 0)
  {
    match e
    case Annotation(_) =>
    case Code =>
      CodeChunkCount(c, s, x);
    case Jump(op, t) =>
      CountEdgeBlock(JumpTo(op, t), Owner, LocationId(c.draws(s.pos)), x);
    case Label(l) =>
      CountEdgeBlock(Mark(l), Owner, LocationId(c.draws(s.pos)), x);
    case Insn(op) =>
      var h := if c.isMain && op == RETURN then [AfterMainCall(Owner)] else [];
      CountAppend(x, h, [Op(op)]);
      CountOne(x, Op(op));
      if h != [] { CountOne(x, AfterMainCall(Owner)); }
  }

  /** The pieces `visitCode` forwards, in the order it forwards them. */
  lemma CodeChunkParts(c: MethodCfg, s: VisitState, mid: seq<Instr>, fin: seq<Instr>)
    requires mid == s.out + [Start] + (if EmitsBeforeMain(c, s) then [BeforeMainCall(Owner)] else [])
    requires fin == mid + (if EntryGate(c, s) then RecordBlock(Owner, LocationId(c.draws(s.pos + 1))) else [])
    ensures fin == s.out + Chunk(c, s, Code)
  {
  }

  lemma CodeChunkCount(c: MethodCfg, s: VisitState, x: Instr)
    requires x == PutPrev(Owner) || x == BeforeMainCall(Owner) || x == AfterMainCall(Owner)
    ensures Count(x, Chunk(c, s, Code)) ==
      (if x == PutPrev(Owner) then (if EntryGate(c, s) then 1 else 0)
       else if x == BeforeMainCall(Owner) then (if EmitsBeforeMain(c, s) then 1 else 0)
       else 0)
  {
    var h := if EmitsBeforeMain(c, s) then [BeforeMainCall(Owner)] else [];
    var r := if EntryGate(c, s) then RecordBlock(Owner, LocationId(c.draws(s.pos + 1))) else [];
    assert Chunk(c, s, Code) == ([Start] + h) + r;
    CountAppend(x, [Start] + h, r);
    CountAppend(x, [Start], h);
    CountOne(x, Start);
    if h != [] { CountOne(x, BeforeMainCall(Owner)); }
    if r != [] { CountRecordBlock(Owner, LocationId(c.draws(s.pos + 1)), x); }
  }

  /** Every piece a body event or the start of the code adds has the rewritten shape on its
      own, and never starts with a record block or a bare `RETURN` of an entry point. */
  lemma ChunkShape(c: MethodCfg, s: VisitState, e: Event)
    requires !e.Annotation?
    ensures ControlRecorded(Chunk(c, s, e), Owner)
    ensures Chunk(c, s, e) != [] && !Chunk(c, s, e)[0].Field?
    ensures c.isMain ==> ReturnsHooked(Chunk(c, s, e), Owner) && Chunk(c, s, e)[0] != Op(RETURN)
  {
    match e
    case Code =>
      CodeChunkShape(c, s);
    case Jump(op, t) =>
      EdgeShape(JumpTo(op, t), Owner, LocationId(c.draws(s.pos)));
    case Label(l) =>
      EdgeShape(Mark(l), Owner, LocationId(c.draws(s.pos)));
    case Insn(op) =>
      InsnChunkShape(c, s, op);
  }

  lemma CodeChunkShape(c: MethodCfg, s: VisitState)
    ensures ControlRecorded(Chunk(c, s, Code), Owner) && ReturnsHooked(Chunk(c, s, Code), Owner)
    ensures Chunk(c, s, Code)[0] == Start
  {
    var h := if EmitsBeforeMain(c, s) then [BeforeMainCall(Owner)] else [];
    var r := if EntryGate(c, s) then RecordBlock(Owner, LocationId(c.draws(s.pos + 1))) else [];
    var ch := [Start] + h + r;
    assert Chunk(c, s, Code) == ch;
    assert forall j :: |[Start] + h| <= j < |ch| ==> ch[j] == r[j - |[Start] + h|];
    StraightShape(ch, Owner);
  }

  lemma InsnChunkShape(c: MethodCfg, s: VisitState, op: int)
    ensures ControlRecorded(Chunk(c, s, Insn(op)), Owner)
    ensures c.isMain ==> ReturnsHooked(Chunk(c, s, Insn(op)), Owner) && Chunk(c, s, Insn(op))[0] != Op(RETURN)
  {
  }

  /** The body of a method only appends to the output, takes one draw and counts one
      location per jump and label, and adds one `prev_location` write per jump and label, no
      start hook, and one end hook per `RETURN` of an entry point. */
  lemma {:induction false} RunBodyCounts(c: MethodCfg, s: VisitState, body: seq<Event>)
    requires AllBody(body)
    ensures var r := Run(c, s, body);
      && r.customInit == s.customInit
      && r.pos == s.pos + Edges(body)
      && r.locations == s.locations + Edges(body)
      && |s.out| <= |r.out| && r.out[..|s.out|] == s.out
      && Count(PutPrev(Owner), r.out) == Count(PutPrev(Owner), s.out) + Edges(body)
      && Count(BeforeMainCall(Owner), r.out) == Count(BeforeMainCall(Owner), s.out)
      && Count(AfterMainCall(Owner), r.out) ==
           Count(AfterMainCall(Owner), s.out) + (if c.isMain then Returns(body) else 0)
  {
    if body != [] {
      var front := body[..|body| - 1];
      var e := body[|body| - 1];
      assert AllBody(front);
      RunBodyCounts(c, s, front);
      RunLast(c, s, body);
      var p := Run(c, s, front);
      BodyStep(c, p, e);
      PrefixTrans(s.out, p.out, Step(c, p, e).out);
    }
  }

  /** One body event: the output only grows, and the counters move as `RunBodyCounts` says. */
  lemma BodyStep(c: MethodCfg, p: VisitState, e: Event)
    requires IsBody(e)
    ensures var q := Step(c, p, e);
      var edge := if e.Jump? || e.Label? then 1 else 0;
      && q.customInit == p.customInit
      && q.pos == p.pos + edge
      && q.locations == p.locations + edge
      && |p.out| <= |q.out| && q.out[..|p.out|] == p.out
      && Count(PutPrev(Owner), q.out) == Count(PutPrev(Owner), p.out) + edge
      && Count(BeforeMainCall(Owner), q.out) == Count(BeforeMainCall(Owner), p.out)
      && Count(AfterMainCall(Owner), q.out) ==
           Count(AfterMainCall(Owner), p.out) + (if c.isMain && e == Insn(RETURN) then 1 else 0)
  {
    var ch := Chunk(c, p, e);
    ChunkCounts(c, p, e);
    CountAppend(PutPrev(Owner), p.out, ch);
    CountAppend(BeforeMainCall(Owner), p.out, ch);
    CountAppend(AfterMainCall(Owner), p.out, ch);
    assert (p.out + ch)[..|p.out|] == p.out;
  }

  lemma PrefixTrans(a: seq<Instr>, b: seq<Instr>, c: seq<Instr>)
    requires |a| <= |b| <= |c| && b[..|a|] == a && c[..|b|] == b
    ensures c[..|a|] == a
  {
    assert c[..|a|] == b[..|a|];
  }

  lemma RunLast(c: MethodCfg, s: VisitState, es: seq<Event>)
    requires es != []
    ensures Run(c, s, es) == Step(c, Run(c, s, es[..|es| - 1]), es[|es| - 1])
    ensures Run(c, s, es).out == Run(c, s, es[..|es| - 1]).out + Chunk(c, Run(c, s, es[..|es| - 1]), es[|es| - 1])
    ensures LiftAll(es) == LiftAll(es[..|es| - 1]) + Lift(es[|es| - 1])
    ensures Edges(es) == Edges(es[..|es| - 1]) + (if es[|es| - 1].Jump? || es[|es| - 1].Label? then 1 else 0)
    ensures Returns(es) == Returns(es[..|es| - 1]) + (if es[|es| - 1] == Insn(RETURN) then 1 else 0)
  {
  }

  lemma SliceAppend(a: seq<Instr>, ch: seq<Instr>, k: int)
    requires 0 <= k <= |a|
    ensures (a + ch)[k..] == a[k..] + ch
  {
  }

  lemma EraseStep(a: seq<Instr>, ch: seq<Instr>, y: seq<Instr>, l1: seq<Instr>, l2: seq<Instr>)
    requires Erase(a + (ch + y)) == l1 + Erase(ch + y)
    requires Erase(ch + y) == l2 + Erase(y)
    ensures Erase(a + ch + y) == l1 + l2 + Erase(y)
  {
    assert a + ch + y == a + (ch + y);
  }

  /** Taking the inserted instructions out of what a body added gives back the body. */
  lemma {:induction false} RunBodyErase(c: MethodCfg, s: VisitState, body: seq<Event>, y: seq<Instr>)
    requires AllBody(body)
    ensures |s.out| <= |Run(c, s, body).out|
    ensures Erase(Run(c, s, body).out[|s.out|..] + y) == LiftAll(body) + Erase(y)
  {
    if body == [] {
      assert Run(c, s, body).out[|s.out|..] + y == y;
      assert LiftAll(body) + Erase(y) == Erase(y);
    } else {
      var front := body[..|body| - 1];
      var e := body[|body| - 1];
      assert AllBody(front);
      var p := Run(c, s, front);
      var ch := Chunk(c, p, e);
      RunBodyErase(c, s, front, ch + y);
      ChunkErase(c, p, e, y);
      RunLast(c, s, body);
      EraseStep(p.out[|s.out|..], ch, y, LiftAll(front), Lift(e));
      SliceAppend(p.out, ch, |s.out|);
    }
  }

  /** A body keeps the rewritten shape of the output: every jump and label followed by its
      record block and, in an entry point, every `RETURN` preceded by the end hook. */
  lemma {:induction false} RunBodyShape(c: MethodCfg, s: VisitState, body: seq<Event>)
    requires AllBody(body)
    ensures ControlRecorded(s.out, Owner) ==> ControlRecorded(Run(c, s, body).out, Owner)
    ensures c.isMain && ReturnsHooked(s.out, Owner) ==> ReturnsHooked(Run(c, s, body).out, Owner)
  {
    if body != [] {
      var front := body[..|body| - 1];
      var e := body[|body| - 1];
      assert AllBody(front);
      RunBodyShape(c, s, front);
      var p := Run(c, s, front);
      var ch := Chunk(c, p, e);
      assert Run(c, s, body).out == p.out + ch;
      ChunkShape(c, p, e);
      if ControlRecorded(s.out, Owner) {
        ControlRecordedAppend(p.out, ch, Owner);
      }
      if c.isMain && ReturnsHooked(s.out, Owner) {
        ReturnsHookedAppend(p.out, ch, Owner);
      }
    }
  }

  // ---------------------------------------------------------------------------
  // One whole method: annotations, `visitCode`, then the body.

  /** The custom-initialisation flag when `visitCode` runs: set by the options or by an
      annotation of the method. */
  predicate CustomInitAtCode(s: VisitState, annots: seq<Event>)
  {
    s.customInit || CustomInitDesc in Descs(annots)
  }

  /** The visitor state when `visitCode` is called. */
  function AtCode(s: VisitState, annots: seq<Event>): VisitState
  {
    s.(customInit := CustomInitAtCode(s, annots))
  }

  /** One method with code, visited in the order a class reader delivers it. */
  function RewriteMethod(c: MethodCfg, s: VisitState, annots: seq<Event>, body: seq<Event>): VisitState
  {
    Run(c, Step(c, AtCode(s, annots), Code), body)
  }

  lemma RunIsRewriteMethod(c: MethodCfg, s: VisitState, annots: seq<Event>, body: seq<Event>)
    requires WellFormed(annots, body)
    ensures Run(c, s, annots + [Code] + body) == RewriteMethod(c, s, annots, body)
    ensures LiftAll(annots + [Code] + body) == [Start] + LiftAll(body)
  {
    RunToCode(c, s, annots);
    RunAppend(c, s, annots + [Code], body);
    LiftToCode(annots, body);
  }

  lemma RunToCode(c: MethodCfg, s: VisitState, annots: seq<Event>)
    requires AllAnnotations(annots)
    ensures Run(c, s, annots + [Code]) == Step(c, AtCode(s, annots), Code)
  {
    RunAnnotations(c, s, annots);
    var es := annots + [Code];
    assert es[..|es| - 1] == annots;
  }

  lemma LiftToCode(annots: seq<Event>, body: seq<Event>)
    requires AllAnnotations(annots)
    ensures LiftAll(annots + [Code] + body) == [Start] + LiftAll(body)
  {
    LiftAllAppend(annots + [Code], body);
    LiftAllAnnotations(annots);
    var es := annots + [Code];
    assert es[..|es| - 1] == annots;
    assert LiftAll(es) == [Start];
  }

  /** What `visitCode` itself does. */
  lemma CodeStep(c: MethodCfg, sa: VisitState)
    ensures var sc := Step(c, sa, Code);
      var entry := if EntryGate(c, sa) then 1 else 0;
      && sc.out == sa.out + Chunk(c, sa, Code)
      && sc.customInit == sa.customInit
      && sc.pos == sa.pos + 1 + entry
      && sc.locations == sa.locations + entry
      && Count(PutPrev(Owner), sc.out) == Count(PutPrev(Owner), sa.out) + entry
      && Count(BeforeMainCall(Owner), sc.out) ==
           Count(BeforeMainCall(Owner), sa.out) + (if EmitsBeforeMain(c, sa) then 1 else 0)
      && Count(AfterMainCall(Owner), sc.out) == Count(AfterMainCall(Owner), sa.out)
      && sc.out[|sa.out|] == Start
      && (EmitsBeforeMain(c, sa) ==> sc.out[|sa.out| + 1] == BeforeMainCall(Owner))
  {
    var ch := Chunk(c, sa, Code);
    CodeChunkCount(c, sa, PutPrev(Owner));
    CodeChunkCount(c, sa, BeforeMainCall(Owner));
    CodeChunkCount(c, sa, AfterMainCall(Owner));
    CountAppend(PutPrev(Owner), sa.out, ch);
    CountAppend(BeforeMainCall(Owner), sa.out, ch);
    CountAppend(AfterMainCall(Owner), sa.out, ch);
    CodeChunkShape(c, sa);
  }

  /** Rewriting one method with code: the location counter and the `prev_location` writes
      grow by one per jump and label plus one when the first draw is below the ratio; an
      entry point gets one `_after_main` call per `RETURN`, other methods none. */
  lemma MethodCounts(c: MethodCfg, s: VisitState, annots: seq<Event>, body: seq<Event>)
    requires WellFormed(annots, body)
    ensures var r := RewriteMethod(c, s, annots, body);
      var entry := if c.draws(s.pos) % 100 < c.ratio then 1 else 0;
      && r.customInit == CustomInitAtCode(s, annots)
      && r.pos == s.pos + 1 + entry + Edges(body)
      && r.locations == s.locations + entry + Edges(body)
      && Count(PutPrev(Owner), r.out) == Count(PutPrev(Owner), s.out) + entry + Edges(body)
      && Count(AfterMainCall(Owner), r.out) ==
           Count(AfterMainCall(Owner), s.out) + (if c.isMain then Returns(body) else 0)
  {
    var sa := AtCode(s, annots);
    CodeStep(c, sa);
    RunBodyCounts(c, Step(c, sa, Code), body);
  }

  /** The rewritten method starts with the code marker, followed by the `_before_main` call
      exactly when the method is an entry point without custom initialisation; that call
      appears nowhere else. */
  lemma MethodEntryHook(c: MethodCfg, s: VisitState, annots: seq<Event>, body: seq<Event>)
    requires WellFormed(annots, body)
    ensures var r := RewriteMethod(c, s, annots, body);
      var hook := c.isMain && !CustomInitAtCode(s, annots);
      && |s.out| < |r.out| && r.out[..|s.out|] == s.out && r.out[|s.out|] == Start
      && ((|s.out| + 1 < |r.out| && r.out[|s.out| + 1] == BeforeMainCall(Owner)) <==> hook)
      && Count(BeforeMainCall(Owner), r.out) == Count(BeforeMainCall(Owner), s.out) + (if hook then 1 else 0)
  {
    var sa := AtCode(s, annots);
    var sc := Step(c, sa, Code);
    CodeStep(c, sa);
    RunBodyCounts(c, sc, body);
    EntryHookAt(s.out, sc.out, Run(c, sc, body).out, EmitsBeforeMain(c, sa), BeforeMainCall(Owner));
  }

  /** The sequence reasoning behind `MethodEntryHook`: the hook is where the code marker is
      followed by it, and a count that grows by one only when the hook is emitted leaves no
      other place for it. */
  lemma EntryHookAt(so: seq<Instr>, sco: seq<Instr>, ro: seq<Instr>, hook: bool, x: Instr)
    requires |so| < |sco| <= |ro| && sco[..|so|] == so && ro[..|sco|] == sco
    requires sco[|so|] == Start && x != Start
    requires hook ==> |so| + 1 < |sco| && sco[|so| + 1] == x
    requires Count(x, ro) == Count(x, so) + (if hook then 1 else 0)
    ensures ro[..|so|] == so && ro[|so|] == Start
    ensures (|so| + 1 < |ro| && ro[|so| + 1] == x) <==> hook
  {
    assert ro[..|so|] == sco[..|so|];
    assert ro[|so|] == sco[|so|];
    if hook {
      assert ro[|so| + 1] == sco[|so| + 1];
    }
    var added := ro[|so|..];
    assert ro == so + added;
    CountAppend(x, so, added);
    if |so| + 1 < |ro| && ro[|so| + 1] == x {
      CountPresent(x, added, 1);
    }
  }

  /** Taking out everything the rewriter inserted into a method gives back its code exactly
      as a copying visitor forwards it (see `RunIsRewriteMethod` for the whole stream). */
  lemma MethodErase(c: MethodCfg, s: VisitState, annots: seq<Event>, body: seq<Event>)
    requires WellFormed(annots, body)
    ensures var r := RewriteMethod(c, s, annots, body);
      |s.out| <= |r.out| && Erase(r.out[|s.out|..]) == [Start] + LiftAll(body)
  {
    var sa := AtCode(s, annots);
    var sc := Step(c, sa, Code);
    var ch := Chunk(c, sa, Code);
    RunBodyErase(c, sc, body, []);
    RunBodyCounts(c, sc, body);
    var ro := Run(c, sc, body).out;
    CodeChunkErase(c, sa, ro[|sc.out|..]);
    EraseAfterCode(s.out, ch, ro, LiftAll(body));
  }

  lemma EraseAfterCode(so: seq<Instr>, ch: seq<Instr>, ro: seq<Instr>, l: seq<Instr>)
    requires |so + ch| <= |ro| && ro[..|so + ch|] == so + ch
    requires Erase(ro[|so + ch|..] + []) == l + Erase([])
    requires Erase(ch + ro[|so + ch|..]) == [Start] + Erase(ro[|so + ch|..])
    ensures |so| <= |ro| && Erase(ro[|so|..]) == [Start] + l
  {
    var t := ro[|so + ch|..];
    assert t + [] == t;
    assert Erase([]) == [] && l + [] == l;
    assert ro[|so|..] == ch + t;
  }

  /** Rewriting keeps the output in shape: every jump and label carries its record block and,
      in an entry point, every `RETURN` is preceded by `_after_main`. */
  lemma MethodShape(c: MethodCfg, s: VisitState, annots: seq<Event>, body: seq<Event>)
    requires WellFormed(annots, body)
    ensures var r := RewriteMethod(c, s, annots, body);
      && (ControlRecorded(s.out, Owner) ==> ControlRecorded(r.out, Owner))
      && (c.isMain && ReturnsHooked(s.out, Owner) ==> ReturnsHooked(r.out, Owner))
  {
    var sa := AtCode(s, annots);
    var sc := Step(c, sa, Code);
    var ch := Chunk(c, sa, Code);
    CodeChunkShape(c, sa);
    if ControlRecorded(s.out, Owner) {
      ControlRecordedAppend(s.out, ch, Owner);
    }
    if c.isMain && ReturnsHooked(s.out, Owner) {
      ReturnsHookedAppend(s.out, ch, Owner);
    }
    RunBodyShape(c, sc, body);
  }

  /** A ratio of 0 (or less) never gives a method an entry record; 100 (or more) always does. */
  lemma EntryGateBounds(c: MethodCfg, s: VisitState)
    ensures c.ratio <= 0 ==> !EntryGate(c, s)
    ensures c.ratio >= 100 ==> EntryGate(c, s)
  {
  }

  /** Everything the rewriter does to one method of a class, from a fresh visitor: the
      location counter grows by exactly the number of record blocks emitted; taking the
      inserted code out gives back the method's code; every jump and label carries its record
      block; an entry point's every `RETURN` is preceded by `_after_main`; `_before_main` is
      emitted, once and right after the code marker, exactly for an entry point with code and
      with neither the custom-init option nor the `CustomInit` annotation, and other methods
      get no hook at all. */
  lemma MethodOutput(c: MethodCfg, customInit: bool, pos: nat, locs: int, m: MethodDecl)
    requires MethodOk(m)
    ensures var r := Run(c, VisitState([], customInit, pos, locs), Events(m));
      var hook := c.isMain && m.code.Some? && !customInit && CustomInitDesc !in m.annotations;
      && pos <= r.pos
      && r.locations == locs + Count(PutPrev(Owner), r.out)
      && Erase(r.out) == LiftAll(Events(m))
      && ControlRecorded(r.out, Owner)
      && (c.isMain ==> ReturnsHooked(r.out, Owner))
      && Count(BeforeMainCall(Owner), r.out) == (if hook then 1 else 0)
      && (hook ==> |r.out| >= 2 && r.out[0] == Start && r.out[1] == BeforeMainCall(Owner))
      && (!c.isMain ==> Count(AfterMainCall(Owner), r.out) == 0)
      && (m.code.None? ==> r.out == [])
  {
    var s := VisitState([], customInit, pos, locs);
    var a := Annots(m.annotations);
    DescsOfAnnots(m.annotations);
    if m.code.None? {
      assert Events(m) == a;
      RunAnnotations(c, s, a);
      LiftAllAnnotations(a);
      assert Count(PutPrev(Owner), []) == 0 && Count(BeforeMainCall(Owner), []) == 0;
      assert Count(AfterMainCall(Owner), []) == 0;
      assert Erase([]) == [];
    } else {
      var body := m.code.value;
      assert Events(m) == a + [Code] + body;
      RunIsRewriteMethod(c, s, a, body);
      MethodWithCode(c, s, a, body);
    }
  }

  lemma EmptyShapes()
    ensures ControlRecorded([], Owner) && ReturnsHooked([], Owner)
  {
  }

  /** The code half of `MethodOutput`, stated on `RewriteMethod`. */
  lemma MethodWithCode(c: MethodCfg, s: VisitState, a: seq<Event>, body: seq<Event>)
    requires WellFormed(a, body) && s.out == []
    ensures var r := RewriteMethod(c, s, a, body);
      var hook := c.isMain && !CustomInitAtCode(s, a);
      && s.pos <= r.pos
      && r.locations == s.locations + Count(PutPrev(Owner), r.out)
      && Erase(r.out) == [Start] + LiftAll(body)
      && ControlRecorded(r.out, Owner)
      && (c.isMain ==> ReturnsHooked(r.out, Owner))
      && Count(BeforeMainCall(Owner), r.out) == (if hook then 1 else 0)
      && (hook ==> |r.out| >= 2 && r.out[0] == Start && r.out[1] == BeforeMainCall(Owner))
      && (!c.isMain ==> Count(AfterMainCall(Owner), r.out) == 0)
  {
    assert Count(PutPrev(Owner), []) == 0 && Count(BeforeMainCall(Owner), []) == 0;
    assert Count(AfterMainCall(Owner), []) == 0;
    MethodCounts(c, s, a, body);
    MethodEntryHook(c, s, a, body);
    MethodErase(c, s, a, body);
    EmptyShapes();
    MethodShape(c, s, a, body);
    var r := RewriteMethod(c, s, a, body);
    assert r.out[0..] == r.out;
  }
}
