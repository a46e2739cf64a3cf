/** What the prototype rewriter's method visitor (`InstrumentingMethodVisitor` in the
    root-level JavaAflInstrument.java) does to one method. It differs from the current one in
    four ways: the emitted code refers to the class `JavaAfl`, the custom-init annotation is
    `JavaAfl.CustomInit`, every method with code gets its entry record (there is no ratio),
    and each method visitor owns its own random stream. */
module ProtoRewrite {
  import opened JavaTypes
  import opened Bytecode
  import opened ClassFiles
  import MethodRewrite

  /** The runtime class the prototype's emitted code refers to. */
  const ProtoOwner: string := "JavaAfl"

  /** `"L" + JavaAfl.CustomInit.class.getName() + ";"`: the nested annotation type. */
  const ProtoCustomInitDesc: string := "LJavaAfl$CustomInit;"

  type Draws = MethodRewrite.Draws

  /** What changes while a method is visited: the forwarded instructions, `_has_custom_init`,
      the draws taken from the visitor's own `Random`, and `total_locations`. */
  datatype ProtoState = ProtoState(out: seq<Instr>, customInit: bool, pos: nat, locations: int)

  /** The record block `_aflMaybeLog` emits when it takes the `pos`-th draw. */
  function ProtoRecord(draws: Draws, pos: nat): seq<Instr>
  {
    RecordBlock(ProtoOwner, MethodRewrite.LocationId(draws(pos)))
  }

  /** Whether `visitCode` emits the `_before_main` call. */
  predicate ProtoEmitsBeforeMain(isMain: bool, s: ProtoState)
  {
    isMain && !s.customInit
  }

  /** The instructions one event makes the prototype visitor forward. */
  function ProtoChunk(isMain: bool, draws: Draws, s: ProtoState, e: Event): seq<Instr>
  {
    match e
    case Annotation(_) => []
    case Code =>
      [Start] + (if ProtoEmitsBeforeMain(isMain, s) then [BeforeMainCall(ProtoOwner)] else []) + ProtoRecord(draws, s.pos)
    case Jump(op, t) => [JumpTo(op, t)] + ProtoRecord(draws, s.pos)
    case Label(l) => [Mark(l)] + ProtoRecord(draws, s.pos)
    case Insn(op) => (if isMain && op == RETURN then [AfterMainCall(ProtoOwner)] else []) + [Op(op)]
  }

  /** `_aflMaybeLog` calls per event: one for the start of the code, each jump and each label. */
  function ProtoRecords(e: Event): nat
  {
    if e.Code? || e.Jump? || e.Label? then 1 else 0
  }

  /** One visitor callback. */
  function ProtoStep(isMain: bool, draws: Draws, s: ProtoState, e: Event): ProtoState
  {
    ProtoState(
      s.out + ProtoChunk(isMain, draws, s, e),
      s.customInit || (e.Annotation? && e.desc == ProtoCustomInitDesc),
      s.pos + ProtoRecords(e),
      s.locations + ProtoRecords(e))
  }

  function ProtoRun(isMain: bool, draws: Draws, s: ProtoState, es: seq<Event>): ProtoState
  {
    if es == [] then s else ProtoStep(isMain, draws, ProtoRun(isMain, draws, s, es[..|es| - 1]), es[|es| - 1])
  }

  // ---------------------------------------------------------------------------

  lemma ProtoRunLast(isMain: bool, draws: Draws, s: ProtoState, es: seq<Event>)
    requires es != []
    ensures ProtoRun(isMain, draws, s, es) == ProtoStep(isMain, draws, ProtoRun(isMain, draws, s, es[..|es| - 1]), es[|es| - 1])
    ensures LiftAll(es) == LiftAll(es[..|es| - 1]) + Lift(es[|es| - 1])
    ensures MethodRewrite.Edges(es) ==
      MethodRewrite.Edges(es[..|es| - 1]) + (if es[|es| - 1].Jump? || es[|es| - 1].Label? then 1 else 0)
    ensures MethodRewrite.Returns(es) ==
      MethodRewrite.Returns(es[..|es| - 1]) + (if es[|es| - 1] == Insn(RETURN) then 1 else 0)
  {
  }

  lemma {:induction false} ProtoRunAppend(isMain: bool, draws: Draws, s: ProtoState, x: seq<Event>, y: seq<Event>)
    ensures ProtoRun(isMain, draws, s, x + y) == ProtoRun(isMain, draws, ProtoRun(isMain, draws, s, x), y)
  {
    if y == [] {
      assert x + y == x;
    } else {
      assert (x + y)[..|x + y| - 1] == x + y[..|y| - 1];
      ProtoRunAppend(isMain, draws, s, x, y[..|y| - 1]);
    }
  }

  /** Annotations only set `_has_custom_init`, exactly when one of them is `JavaAfl.CustomInit`. */
  lemma {:induction false} ProtoRunAnnotations(isMain: bool, draws: Draws, s: ProtoState, annots: seq<Event>)
    requires AllAnnotations(annots)
    ensures ProtoRun(isMain, draws, s, annots) == s.(customInit := s.customInit || ProtoCustomInitDesc in Descs(annots))
  {
    if annots != [] {
      var front := annots[..|annots| - 1];
      assert AllAnnotations(front);
      ProtoRunAnnotations(isMain, draws, s, front);
      assert Descs(annots) == Descs(front) + [annots[|annots| - 1].desc];
    }
  }

  // ---------------------------------------------------------------------------
  // The body of a method: jumps, labels and zero-operand instructions.

  /** One body event: the output only grows, one draw and one location per jump and label,
      one `prev_location` write per jump and label, and one end hook per `RETURN` of `main`. */
  lemma ProtoBodyStep(isMain: bool, draws: Draws, p: ProtoState, e: Event)
    requires IsBody(e)
    ensures var q := ProtoStep(isMain, draws, p, e);
      var edge := if e.Jump? || e.Label? then 1 else 0;
      && q.customInit == p.customInit
      && q.pos == p.pos + edge
      && q.locations == p.locations + edge
      && |p.out| <= |q.out| && q.out[..|p.out|] == p.out
      && Count(PutPrev(ProtoOwner), q.out) == Count(PutPrev(ProtoOwner), p.out) + edge
      && Count(BeforeMainCall(ProtoOwner), q.out) == Count(BeforeMainCall(ProtoOwner), p.out)
      && Count(AfterMainCall(ProtoOwner), q.out) ==
           Count(AfterMainCall(ProtoOwner), p.out) + (if isMain && e == Insn(RETURN) then 1 else 0)
  {
    var ch := ProtoChunk(isMain, draws, p, e);
    ProtoBodyChunkCount(isMain, draws, p, e, PutPrev(ProtoOwner));
    ProtoBodyChunkCount(isMain, draws, p, e, BeforeMainCall(ProtoOwner));
    ProtoBodyChunkCount(isMain, draws, p, e, AfterMainCall(ProtoOwner));
    CountAppend(PutPrev(ProtoOwner), p.out, ch);
    CountAppend(BeforeMainCall(ProtoOwner), p.out, ch);
    CountAppend(AfterMainCall(ProtoOwner), p.out, ch);
    assert (p.out + ch)[..|p.out|] == p.out;
  }

  lemma ProtoBodyChunkCount(isMain: bool, draws: Draws, s: ProtoState, e: Event, x: Instr)
    requires IsBody(e)
    requires x == PutPrev(ProtoOwner) || x == BeforeMainCall(ProtoOwner) || x == AfterMainCall(ProtoOwner)
    ensures Count(x, ProtoChunk(isMain, draws, s, e)) ==
      (if x == PutPrev(ProtoOwner) then (if e.Jump? || e.Label? then 1 else 0)
       else if x == AfterMainCall(ProtoOwner) && isMain && e == Insn(RETURN) then 1
       else 0)
  {
    match e
    case Jump(op, t) =>
      CountEdgeBlock(JumpTo(op, t), ProtoOwner, MethodRewrite.LocationId(draws(s.pos)), x);
    case Label(l) =>
      CountEdgeBlock(Mark(l), ProtoOwner, MethodRewrite.LocationId(draws(s.pos)), x);
    case Insn(op) =>
      var h := if isMain && op == RETURN then [AfterMainCall(ProtoOwner)] else [];
      CountAppend(x, h, [Op(op)]);
      CountOne(x, Op(op));
      if h != [] { CountOne(x, AfterMainCall(ProtoOwner)); }
  }

  lemma {:induction false} ProtoRunBodyCounts(isMain: bool, draws: Draws, s: ProtoState, body: seq<Event>)
    requires AllBody(body)
    ensures var r := ProtoRun(isMain, draws, s, body);
      && r.customInit == s.customInit
      && r.pos == s.pos + MethodRewrite.Edges(body)
      && r.locations == s.locations + MethodRewrite.Edges(body)
      && |s.out| <= |r.out| && r.out[..|s.out|] == s.out
      && Count(PutPrev(ProtoOwner), r.out) == Count(PutPrev(ProtoOwner), s.out) + MethodRewrite.Edges(body)
      && Count(BeforeMainCall(ProtoOwner), r.out) == Count(BeforeMainCall(ProtoOwner), s.out)
      && Count(AfterMainCall(ProtoOwner), r.out) ==
           Count(AfterMainCall(ProtoOwner), s.out) + (if isMain then MethodRewrite.Returns(body) else 0)
  {
    if body != [] {
      var front := body[..|body| - 1];
      var e := body[|body| - 1];
      assert AllBody(front);
      ProtoRunBodyCounts(isMain, draws, s, front);
      ProtoRunLast(isMain, draws, s, body);
      var p := ProtoRun(isMain, draws, s, front);
      ProtoBodyStep(isMain, draws, p, e);
      MethodRewrite.PrefixTrans(s.out, p.out, ProtoStep(isMain, draws, p, e).out);
    }
  }

  /** Taking out what one body event added leaves what a copying visitor forwards. */
  lemma ProtoBodyChunkErase(isMain: bool, draws: Draws, s: ProtoState, e: Event, y: seq<Instr>)
    requires IsBody(e)
    ensures Erase(ProtoChunk(isMain, draws, s, e) + y) == Lift(e) + Erase(y)
  {
    match e
    case Jump(op, t) =>
      ProtoEdgeErase(JumpTo(op, t), draws, s.pos, y);
    case Label(l) =>
      ProtoEdgeErase(Mark(l), draws, s.pos, y);
    case Insn(op) =>
      EraseKeep(Op(op), y);
      if isMain && op == RETURN {
        assert ProtoChunk(isMain, draws, s, e) + y == [AfterMainCall(ProtoOwner)] + ([Op(op)] + y);
        EraseInvoke(AfterMainCall(ProtoOwner), [Op(op)] + y);
      } else {
        assert ProtoChunk(isMain, draws, s, e) + y == [Op(op)] + y;
      }
  }

  lemma ProtoEdgeErase(x: Instr, draws: Draws, pos: nat, y: seq<Instr>)
    requires x.JumpTo? || x.Mark?
    ensures Erase([x] + ProtoRecord(draws, pos) + y) == [x] + Erase(y)
  {
    var rb := ProtoRecord(draws, pos);
    assert [x] + rb + y == [x] + (rb + y);
    EraseKeep(x, rb + y);
    EraseRecord(ProtoOwner, MethodRewrite.LocationId(draws(pos)), y);
  }

  lemma {:induction false} ProtoRunBodyErase(isMain: bool, draws: Draws, s: ProtoState, body: seq<Event>, y: seq<Instr>)
    requires AllBody(body)
    ensures |s.out| <= |ProtoRun(isMain, draws, s, body).out|
    ensures Erase(ProtoRun(isMain, draws, s, body).out[|s.out|..] + y) == LiftAll(body) + Erase(y)
  {
    if body == [] {
      assert ProtoRun(isMain, draws, s, body).out[|s.out|..] + y == y;
      assert LiftAll(body) + Erase(y) == Erase(y);
    } else {
      var front := body[..|body| - 1];
      var e := body[|body| - 1];
      assert AllBody(front);
      var p := ProtoRun(isMain, draws, s, front);
      var ch := ProtoChunk(isMain, draws, p, e);
      ProtoRunBodyErase(isMain, draws, s, front, ch + y);
      ProtoBodyChunkErase(isMain, draws, p, e, y);
      ProtoRunLast(isMain, draws, s, body);
      MethodRewrite.EraseStep(p.out[|s.out|..], ch, y, LiftAll(front), Lift(e));
      assert (p.out + ch)[|s.out|..] == p.out[|s.out|..] + ch;
    }
  }

  /** Every piece a body event adds has the rewritten shape and does not start with a record
      block or with a bare `RETURN` of `main`. */
  lemma ProtoBodyChunkShape(isMain: bool, draws: Draws, s: ProtoState, e: Event)
    requires IsBody(e)
    ensures ControlRecorded(ProtoChunk(isMain, draws, s, e), ProtoOwner)
    ensures ProtoChunk(isMain, draws, s, e) != [] && !ProtoChunk(isMain, draws, s, e)[0].Field?
    ensures isMain ==> ReturnsHooked(ProtoChunk(isMain, draws, s, e), ProtoOwner) && ProtoChunk(isMain, draws, s, e)[0] != Op(RETURN)
  {
    match e
    case Jump(op, t) =>
      EdgeShape(JumpTo(op, t), ProtoOwner, MethodRewrite.LocationId(draws(s.pos)));
    case Label(l) =>
      EdgeShape(Mark(l), ProtoOwner, MethodRewrite.LocationId(draws(s.pos)));
    case Insn(op) =>
  }

  lemma {:induction false} ProtoRunBodyShape(isMain: bool, draws: Draws, s: ProtoState, body: seq<Event>)
    requires AllBody(body)
    ensures ControlRecorded(s.out, ProtoOwner) ==> ControlRecorded(ProtoRun(isMain, draws, s, body).out, ProtoOwner)
    ensures isMain && ReturnsHooked(s.out, ProtoOwner) ==> ReturnsHooked(ProtoRun(isMain, draws, s, body).out, ProtoOwner)
  {
    if body != [] {
      var front := body[..|body| - 1];
      var e := body[|body| - 1];
      assert AllBody(front);
      ProtoRunBodyShape(isMain, draws, s, front);
      var p := ProtoRun(isMain, draws, s, front);
      var ch := ProtoChunk(isMain, draws, p, e);
      assert ProtoRun(isMain, draws, s, body).out == p.out + ch;
      ProtoBodyChunkShape(isMain, draws, p, e);
      if ControlRecorded(s.out, ProtoOwner) {
        ControlRecordedAppend(p.out, ch, ProtoOwner);
      }
      if isMain && ReturnsHooked(s.out, ProtoOwner) {
        ReturnsHookedAppend(p.out, ch, ProtoOwner);
      }
    }
  }

  // ---------------------------------------------------------------------------
  // `visitCode` and one whole method.

  /** What `visitCode` forwards: the code marker, the start hook of a `main` without custom
      init, and always the entry record, taking one draw and counting one location. */
  lemma ProtoCodeStep(isMain: bool, draws: Draws, sa: ProtoState)
    ensures var sc := ProtoStep(isMain, draws, sa, Code);
      var h := if ProtoEmitsBeforeMain(isMain, sa) then 1 else 0;
      && sc.out == sa.out + ProtoChunk(isMain, draws, sa, Code)
      && sc.customInit == sa.customInit
      && sc.pos == sa.pos + 1
      && sc.locations == sa.locations + 1
      && Count(PutPrev(ProtoOwner), sc.out) == Count(PutPrev(ProtoOwner), sa.out) + 1
      && Count(BeforeMainCall(ProtoOwner), sc.out) == Count(BeforeMainCall(ProtoOwner), sa.out) + h
      && Count(AfterMainCall(ProtoOwner), sc.out) == Count(AfterMainCall(ProtoOwner), sa.out)
      && |sc.out| == |sa.out| + 1 + h + 12
      && sc.out[|sa.out|] == Start
      && (h == 1 ==> sc.out[|sa.out| + 1] == BeforeMainCall(ProtoOwner))
      && sc.out[|sa.out| + 1 + h..] == ProtoRecord(draws, sa.pos)
  {
    var hs := if ProtoEmitsBeforeMain(isMain, sa) then [BeforeMainCall(ProtoOwner)] else [];
    var rb := ProtoRecord(draws, sa.pos);
    var ch := ProtoChunk(isMain, draws, sa, Code);
    assert ch == ([Start] + hs) + rb;
    ProtoCodeCount(hs, rb, draws, sa.pos, PutPrev(ProtoOwner));
    ProtoCodeCount(hs, rb, draws, sa.pos, BeforeMainCall(ProtoOwner));
    ProtoCodeCount(hs, rb, draws, sa.pos, AfterMainCall(ProtoOwner));
    CountAppend(PutPrev(ProtoOwner), sa.out, ch);
    CountAppend(BeforeMainCall(ProtoOwner), sa.out, ch);
    CountAppend(AfterMainCall(ProtoOwner), sa.out, ch);
    assert (sa.out + ch)[|sa.out| + 1 + |hs|..] == rb;
  }

  lemma ProtoCodeCount(hs: seq<Instr>, rb: seq<Instr>, draws: Draws, pos: nat, x: Instr)
    requires hs == [] || hs == [BeforeMainCall(ProtoOwner)]
    requires rb == ProtoRecord(draws, pos)
    requires x == PutPrev(ProtoOwner) || x == BeforeMainCall(ProtoOwner) || x == AfterMainCall(ProtoOwner)
    ensures Count(x, ([Start] + hs) + rb) ==
      (if x == PutPrev(ProtoOwner) then 1 else if x == BeforeMainCall(ProtoOwner) then |hs| else 0)
  {
    CountAppend(x, [Start] + hs, rb);
    CountAppend(x, [Start], hs);
    CountOne(x, Start);
    if hs != [] { CountOne(x, BeforeMainCall(ProtoOwner)); }
    CountRecordBlock(ProtoOwner, MethodRewrite.LocationId(draws(pos)), x);
  }

  lemma ProtoCodeShape(isMain: bool, draws: Draws, sa: ProtoState)
    ensures ControlRecorded(ProtoChunk(isMain, draws, sa, Code), ProtoOwner)
    ensures ReturnsHooked(ProtoChunk(isMain, draws, sa, Code), ProtoOwner)
  {
    var hs := if ProtoEmitsBeforeMain(isMain, sa) then [BeforeMainCall(ProtoOwner)] else [];
    var rb := ProtoRecord(draws, sa.pos);
    var ch := [Start] + hs + rb;
    assert ProtoChunk(isMain, draws, sa, Code) == ch;
    assert forall j :: |[Start] + hs| <= j < |ch| ==> ch[j] == rb[j - |[Start] + hs|];
    StraightShape(ch, ProtoOwner);
  }

  lemma ProtoCodeErase(isMain: bool, draws: Draws, sa: ProtoState, y: seq<Instr>)
    ensures Erase(ProtoChunk(isMain, draws, sa, Code) + y) == [Start] + Erase(y)
  {
    var hs := if ProtoEmitsBeforeMain(isMain, sa) then [BeforeMainCall(ProtoOwner)] else [];
    var rb := ProtoRecord(draws, sa.pos);
    assert ProtoChunk(isMain, draws, sa, Code) + y == [Start] + (hs + (rb + y));
    EraseKeep(Start, hs + (rb + y));
    if hs != [] {
      EraseInvoke(BeforeMainCall(ProtoOwner), rb + y);
    } else {
      assert hs + (rb + y) == rb + y;
    }
    EraseRecord(ProtoOwner, MethodRewrite.LocationId(draws(sa.pos)), y);
  }

  /** The visitor state when `visitCode` is called. */
  function ProtoAtCode(s: ProtoState, annots: seq<Event>): ProtoState
  {
    s.(customInit := s.customInit || ProtoCustomInitDesc in Descs(annots))
  }

  /** One method with code, visited in the class reader's order. */
  function ProtoRewriteMethod(isMain: bool, draws: Draws, s: ProtoState, annots: seq<Event>, body: seq<Event>): ProtoState
  {
    ProtoRun(isMain, draws, ProtoStep(isMain, draws, ProtoAtCode(s, annots), Code), body)
  }

  lemma ProtoRunIsRewriteMethod(isMain: bool, draws: Draws, s: ProtoState, annots: seq<Event>, body: seq<Event>)
    requires WellFormed(annots, body)
    ensures ProtoRun(isMain, draws, s, annots + [Code] + body) == ProtoRewriteMethod(isMain, draws, s, annots, body)
    ensures LiftAll(annots + [Code] + body) == [Start] + LiftAll(body)
  {
    ProtoRunAnnotations(isMain, draws, s, annots);
    var es := annots + [Code];
    assert es[..|es| - 1] == annots;
    ProtoRunAppend(isMain, draws, s, es, body);
    LiftAllAppend(es, body);
    LiftAllAnnotations(annots);
    assert LiftAll(es) == [Start];
  }

  /** The counting half for a method with code: one location and one `prev_location` write
      for the entry and one per jump and label; one end hook per `RETURN` of `main`; the
      start hook exactly for `main` without custom init, right after the code marker, and
      then the entry record drawn first from the visitor's stream. */
  lemma ProtoMethodCounts(isMain: bool, draws: Draws, s: ProtoState, annots: seq<Event>, body: seq<Event>)
    requires WellFormed(annots, body) && s.out == []
    ensures var r := ProtoRewriteMethod(isMain, draws, s, annots, body);
      var hook := ProtoEmitsBeforeMain(isMain, ProtoAtCode(s, annots));
      var h := if hook then 1 else 0;
      && r.pos == s.pos + 1 + MethodRewrite.Edges(body)
      && r.locations == s.locations + 1 + MethodRewrite.Edges(body)
      && Count(PutPrev(ProtoOwner), r.out) == 1 + MethodRewrite.Edges(body)
      && Count(AfterMainCall(ProtoOwner), r.out) == (if isMain then MethodRewrite.Returns(body) else 0)
      && Count(BeforeMainCall(ProtoOwner), r.out) == h
      && |r.out| >= 13 + h && r.out[0] == Start && (hook ==> r.out[1] == BeforeMainCall(ProtoOwner))
      && r.out[1 + h..13 + h] == ProtoRecord(draws, s.pos)
  {
    var sa := ProtoAtCode(s, annots);
    var sc := ProtoStep(isMain, draws, sa, Code);
    assert Count(PutPrev(ProtoOwner), []) == 0 && Count(BeforeMainCall(ProtoOwner), []) == 0;
    assert Count(AfterMainCall(ProtoOwner), []) == 0;
    ProtoCodeStep(isMain, draws, sa);
    ProtoRunBodyCounts(isMain, draws, sc, body);
    ProtoMethodPrefix(isMain, draws, s, annots, body);
  }

  /** The first instructions of a rewritten method: the code marker, the start hook when
      due, then the entry record. */
  lemma ProtoMethodPrefix(isMain: bool, draws: Draws, s: ProtoState, annots: seq<Event>, body: seq<Event>)
    requires WellFormed(annots, body) && s.out == []
    ensures var r := ProtoRewriteMethod(isMain, draws, s, annots, body);
      var hook := ProtoEmitsBeforeMain(isMain, ProtoAtCode(s, annots));
      var h := if hook then 1 else 0;
      && |r.out| >= 13 + h && r.out[0] == Start && (hook ==> r.out[1] == BeforeMainCall(ProtoOwner))
      && r.out[1 + h..13 + h] == ProtoRecord(draws, s.pos)
  {
    var sa := ProtoAtCode(s, annots);
    var sc := ProtoStep(isMain, draws, sa, Code);
    ProtoCodeStep(isMain, draws, sa);
    ProtoRunBodyCounts(isMain, draws, sc, body);
    var h := if ProtoEmitsBeforeMain(isMain, sa) then 1 else 0;
    PrefixParts(ProtoRun(isMain, draws, sc, body).out, sc.out, h);
  }

  lemma PrefixParts(ro: seq<Instr>, x: seq<Instr>, h: nat)
    requires |x| == 13 + h && |x| <= |ro| && ro[..|x|] == x
    ensures ro[0] == x[0] && (h == 1 ==> ro[1] == x[1]) && ro[1 + h..13 + h] == x[1 + h..]
  {
    assert ro[1 + h..13 + h] == ro[..|x|][1 + h..];
  }

  /** Taking the inserted code out of a rewritten method gives back its code. */
  lemma ProtoMethodErase(isMain: bool, draws: Draws, s: ProtoState, annots: seq<Event>, body: seq<Event>)
    requires WellFormed(annots, body) && s.out == []
    ensures Erase(ProtoRewriteMethod(isMain, draws, s, annots, body).out) == [Start] + LiftAll(body)
  {
    var sa := ProtoAtCode(s, annots);
    var sc := ProtoStep(isMain, draws, sa, Code);
    var ch := ProtoChunk(isMain, draws, sa, Code);
    ProtoRunBodyErase(isMain, draws, sc, body, []);
    ProtoRunBodyCounts(isMain, draws, sc, body);
    var ro := ProtoRun(isMain, draws, sc, body).out;
    ProtoCodeErase(isMain, draws, sa, ro[|ch|..]);
    ProtoEraseJoin(ch, ro, LiftAll(body));
  }

  lemma ProtoEraseJoin(ch: seq<Instr>, ro: seq<Instr>, l: seq<Instr>)
    requires |ch| <= |ro| && ro[..|ch|] == ch
    requires Erase(ro[|ch|..] + []) == l + Erase([])
    requires Erase(ch + ro[|ch|..]) == [Start] + Erase(ro[|ch|..])
    ensures Erase(ro) == [Start] + l
  {
    EraseNil(ro[|ch|..], l);
    assert ch + ro[|ch|..] == ro;
  }

  lemma EraseNil(t: seq<Instr>, l: seq<Instr>)
    requires Erase(t + []) == l + Erase([])
    ensures Erase(t) == l
  {
    assert t + [] == t && l + [] == l;
  }

  /** Every jump and label of a rewritten method carries its record block and, in `main`,
      every `RETURN` its end hook. */
  lemma ProtoMethodShape(isMain: bool, draws: Draws, s: ProtoState, annots: seq<Event>, body: seq<Event>)
    requires WellFormed(annots, body) && s.out == []
    ensures var r := ProtoRewriteMethod(isMain, draws, s, annots, body);
      && ControlRecorded(r.out, ProtoOwner)
      && (isMain ==> ReturnsHooked(r.out, ProtoOwner))
  {
    var sa := ProtoAtCode(s, annots);
    var sc := ProtoStep(isMain, draws, sa, Code);
    assert sc.out == ProtoChunk(isMain, draws, sa, Code);
    ProtoCodeShape(isMain, draws, sa);
    ProtoRunBodyShape(isMain, draws, sc, body);
  }

  /** `ProtoMethodOutput` for a method with code, stated on `ProtoRewriteMethod`. */
  lemma ProtoMethodWithCode(isMain: bool, draws: Draws, s: ProtoState, a: seq<Event>, body: seq<Event>)
    requires WellFormed(a, body) && s.out == [] && s.pos == 0
    ensures var r := ProtoRewriteMethod(isMain, draws, s, a, body);
      var hook := ProtoEmitsBeforeMain(isMain, ProtoAtCode(s, a));
      var h := if hook then 1 else 0;
      && r.locations == s.locations + Count(PutPrev(ProtoOwner), r.out)
      && Count(PutPrev(ProtoOwner), r.out) == 1 + MethodRewrite.Edges(body)
      && Erase(r.out) == [Start] + LiftAll(body)
      && ControlRecorded(r.out, ProtoOwner)
      && (isMain ==> ReturnsHooked(r.out, ProtoOwner))
      && (!isMain ==> Count(AfterMainCall(ProtoOwner), r.out) == 0)
      && Count(BeforeMainCall(ProtoOwner), r.out) == h
      && |r.out| >= 13 + h
      && (hook ==> r.out[..2] == [Start, BeforeMainCall(ProtoOwner)])
      && r.out[1 + h..13 + h] == ProtoRecord(draws, 0)
  {
    ProtoMethodCounts(isMain, draws, s, a, body);
    ProtoMethodErase(isMain, draws, s, a, body);
    ProtoMethodShape(isMain, draws, s, a, body);
    var r := ProtoRewriteMethod(isMain, draws, s, a, body);
    if ProtoEmitsBeforeMain(isMain, ProtoAtCode(s, a)) {
      assert r.out[..2] == [r.out[0], r.out[1]];
    }
  }

  /** Everything the prototype does to one method from a fresh visitor (no custom init seen,
      a new random stream): as for the current rewriter, but the entry record is always
      there, so a method with code gets `1 + #jumps + #labels` records and `total_locations`
      grows by that many; a method without code is forwarded as nothing at all. */
  lemma ProtoMethodOutput(isMain: bool, draws: Draws, locs: int, m: MethodDecl)
    requires MethodOk(m)
    ensures var r := ProtoRun(isMain, draws, ProtoState([], false, 0, locs), Events(m));
      var hook := isMain && m.code.Some? && ProtoCustomInitDesc !in m.annotations;
      var h := if hook then 1 else 0;
      && r.locations == locs + Count(PutPrev(ProtoOwner), r.out)
      && Count(PutPrev(ProtoOwner), r.out) == (if m.code.Some? then 1 + MethodRewrite.Edges(m.code.value) else 0)
      && Erase(r.out) == LiftAll(Events(m))
      && ControlRecorded(r.out, ProtoOwner)
      && (isMain ==> ReturnsHooked(r.out, ProtoOwner))
      && (!isMain ==> Count(AfterMainCall(ProtoOwner), r.out) == 0)
      && Count(BeforeMainCall(ProtoOwner), r.out) == h
      && (m.code.Some? ==> |r.out| >= 13 + h && r.out[1 + h..13 + h] == ProtoRecord(draws, 0))
      && (hook ==> r.out[..2] == [Start, BeforeMainCall(ProtoOwner)])
      && (m.code.None? ==> r.out == [])
  {
    var s := ProtoState([], false, 0, locs);
    var a := Annots(m.annotations);
    DescsOfAnnots(m.annotations);
    if m.code.None? {
      assert Events(m) == a;
      ProtoMethodNoCode(isMain, draws, s, a);
    } else {
      var body := m.code.value;
      assert Events(m) == a + [Code] + body;
      ProtoRunIsRewriteMethod(isMain, draws, s, a, body);
      ProtoMethodWithCode(isMain, draws, s, a, body);
    }
  }

  /** An abstract or native method: only its annotations are visited, and nothing is
      forwarded. */
  lemma ProtoMethodNoCode(isMain: bool, draws: Draws, s: ProtoState, a: seq<Event>)
    requires AllAnnotations(a) && s.out == []
    ensures var r := ProtoRun(isMain, draws, s, a);
      && r.out == [] && r.locations == s.locations && Erase(r.out) == LiftAll(a)
      && Count(PutPrev(ProtoOwner), r.out) == 0 && Count(BeforeMainCall(ProtoOwner), r.out) == 0
      && Count(AfterMainCall(ProtoOwner), r.out) == 0
      && ControlRecorded(r.out, ProtoOwner) && ReturnsHooked(r.out, ProtoOwner)
  {
    ProtoRunAnnotations(isMain, draws, s, a);
    LiftAllAnnotations(a);
    assert Count(PutPrev(ProtoOwner), []) == 0 && Count(BeforeMainCall(ProtoOwner), []) == 0;
    assert Count(AfterMainCall(ProtoOwner), []) == 0;
    assert Erase([]) == [];
    EmptyProtoShapes();
  }

  lemma EmptyProtoShapes()
    ensures ControlRecorded([], ProtoOwner) && ReturnsHooked([], ProtoOwner)
  {
  }
}
