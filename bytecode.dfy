/** The method-body view shared by both rewriters: the tagged event stream a class reader
    delivers to a method visitor, the instructions a visitor forwards downstream, the
    12-instruction coverage record block, and the run-time meaning of that block. */
module Bytecode {
  import opened JavaTypes
  import opened Wrappers

  // JVM opcodes used by the rewriters.
  const GETSTATIC: int := 178
  const PUTSTATIC: int := 179
  const INVOKESTATIC: int := 184
  const IXOR: int := 130
  const DUP2: int := 92
  const BALOAD: int := 51
  const ICONST_1: int := 4
  const IADD: int := 96
  const I2B_OP: int := 145
  const BASTORE: int := 84
  const RETURN: int := 177

  /** What a class reader delivers to a method visitor, in order: annotations
      (`visitAnnotation`), the start of the code (`visitCode`), jumps (`visitJumpInsn`),
      jump targets (`visitLabel`) and zero-operand instructions (`visitInsn`). The other
      visitor calls, which the rewriters forward unchanged, are not events of this model. */
  datatype Event =
    | Annotation(desc: string)
    | Code
    | Jump(opcode: int, target: nat)
    | Label(id: nat)
    | Insn(opcode: int)

  /** What a method visitor forwards to the class writer. */
  datatype Instr =
    | Start                                                       // visitCode()
    | Field(opcode: int, owner: string, name: string, desc: string) // visitFieldInsn
    | LdcInt(value: Int32)                                        // visitLdcInsn(Integer)
    | Invoke(opcode: int, owner: string, name: string, desc: string) // visitMethodInsn
    | JumpTo(opcode: int, target: nat)                            // visitJumpInsn
    | Mark(id: nat)                                               // visitLabel
    | Op(opcode: int)                                             // visitInsn

  /** A method body with code: annotations, then the start of the code, then instructions. */
  predicate IsBody(e: Event)
  {
    e.Jump? || e.Label? || e.Insn?
  }

  predicate AllAnnotations(es: seq<Event>)
  {
    forall i :: 0 <= i < |es| ==> es[i].Annotation?
  }

  predicate AllBody(es: seq<Event>)
  {
    forall i :: 0 <= i < |es| ==> IsBody(es[i])
  }

  /** The order in which a class reader visits one method: annotations first, then, for a
      method that has code, `visitCode` followed by the instructions. */
  predicate WellFormed(annots: seq<Event>, body: seq<Event>)
  {
    AllAnnotations(annots) && AllBody(body)
  }

  /** The annotation descriptors among `es`. */
  function Descs(es: seq<Event>): seq<string>
  {
    if es == [] then []
    else Descs(es[..|es| - 1]) + (if es[|es| - 1].Annotation? then [es[|es| - 1].desc] else [])
  }

  function BeforeMainCall(owner: string): Instr
  {
    Invoke(INVOKESTATIC, owner, "_before_main", "()V")
  }

  function AfterMainCall(owner: string): Instr
  {
    Invoke(INVOKESTATIC, owner, "_after_main", "()V")
  }

  function PutPrev(owner: string): Instr
  {
    Field(PUTSTATIC, owner, "prev_location", "I")
  }

  /** The coverage record block that `_aflMaybeLog` emits for location `id`. */
  function RecordBlock(owner: string, id: Int32): (r: seq<Instr>)
    ensures |r| == 12
  {
    [ Field(GETSTATIC, owner, "map", "[B"),
      LdcInt(id),
      Field(GETSTATIC, owner, "prev_location", "I"),
      Op(IXOR),
      Op(DUP2),
      Op(BALOAD),
      Op(ICONST_1),
      Op(IADD),
      Op(I2B_OP),
      Op(BASTORE),
      LdcInt(Shr1(id)),
      PutPrev(owner) ]
  }

  // ---------------------------------------------------------------------------
  // Run-time meaning of the emitted straight-line code.

  /** An operand-stack value: an `int`, or the reference held by the static `map` field. */
  datatype Value = IntVal(i: Int32) | MapRef | NullRef

  /** The part of the JVM state the record block touches: its operand stack (top last), the
      static `map` (None while it is null) and the static `prev_location`. */
  datatype Frame = Frame(stack: seq<Value>, coverage: Option<seq<JByte>>, prev: Int32)

  datatype Exn = NullPointer | IndexOutOfBounds

  /** `Stuck` stands for code the JVM verifier would refuse (wrong stack shape, unknown field). */
  datatype Outcome = Normal(frame: Frame) | Threw(exn: Exn) | Stuck

  function Push(f: Frame, v: Value): Frame
  {
    f.(stack := f.stack + [v])
  }

  /** A field instruction on the statics of class `owner`. */
  function ExecField(owner: string, op: int, o: string, name: string, desc: string, f: Frame): Outcome
  {
    var st, n := f.stack, |f.stack|;
    if o != owner then Stuck
    else if op == GETSTATIC && name == "map" && desc == "[B" then
      Normal(Push(f, if f.coverage.None? then NullRef else MapRef))
    else if op == GETSTATIC && name == "prev_location" && desc == "I" then
      Normal(Push(f, IntVal(f.prev)))
    else if op == PUTSTATIC && name == "prev_location" && desc == "I" && n >= 1 && st[n - 1].IntVal? then
      Normal(f.(stack := st[..n - 1], prev := st[n - 1].i))
    else Stuck
  }

  /** BALOAD: push the (sign-extended) byte at an index of the array reference below it. */
  function ExecBaload(f: Frame): Outcome
  {
    var st, n := f.stack, |f.stack|;
    if n >= 2 && st[n - 1].IntVal? && !st[n - 2].IntVal? then
      if st[n - 2].NullRef? then Threw(NullPointer)
      else if f.coverage.None? then Stuck
      else if 0 <= st[n - 1].i as int < |f.coverage.value| then
        Normal(f.(stack := st[..n - 2] + [IntVal(f.coverage.value[st[n - 1].i] as int as Int32)]))
      else Threw(IndexOutOfBounds)
    else Stuck
  }

  /** BASTORE: store the low byte of the top value at an index of the array reference. */
  function ExecBastore(f: Frame): Outcome
  {
    var st, n := f.stack, |f.stack|;
    if n >= 3 && !st[n - 3].IntVal? && st[n - 2].IntVal? && st[n - 1].IntVal? then
      if st[n - 3].NullRef? then Threw(NullPointer)
      else if f.coverage.None? then Stuck
      else if 0 <= st[n - 2].i as int < |f.coverage.value| then
        Normal(f.(stack := st[..n - 3],
                  coverage := Some(f.coverage.value[st[n - 2].i as int := I2B(st[n - 1].i as int)])))
      else Threw(IndexOutOfBounds)
    else Stuck
  }

  /** A zero-operand instruction. */
  function ExecOp(code: int, f: Frame): Outcome
  {
    var st, n := f.stack, |f.stack|;
    if code == IXOR && n >= 2 && st[n - 2].IntVal? && st[n - 1].IntVal? then
      Normal(f.(stack := st[..n - 2] + [IntVal(Xor(st[n - 2].i, st[n - 1].i))]))
    else if code == DUP2 && n >= 2 then
      Normal(f.(stack := st + st[n - 2..]))
    else if code == BALOAD then ExecBaload(f)
    else if code == ICONST_1 then
      Normal(Push(f, IntVal(1)))
    else if code == IADD && n >= 2 && st[n - 2].IntVal? && st[n - 1].IntVal? then
      Normal(f.(stack := st[..n - 2] + [IntVal(Wrap32(st[n - 2].i as int + st[n - 1].i as int))]))
    else if code == I2B_OP && n >= 1 && st[n - 1].IntVal? then
      Normal(f.(stack := st[..n - 1] + [IntVal(I2B(st[n - 1].i as int) as int as Int32)]))
    else if code == BASTORE then ExecBastore(f)
    else Stuck
  }

  /** One instruction, on the statics of class `owner`. Control transfers, hooks and code
      markers are outside this straight-line model. */
  function ExecInstr(owner: string, i: Instr, f: Frame): Outcome
  {
    match i
    case Field(op, o, name, desc) => ExecField(owner, op, o, name, desc, f)
    case LdcInt(v) => Normal(Push(f, IntVal(v)))
    case Op(code) => ExecOp(code, f)
    case _ => Stuck
  }

  /** Straight-line execution; the first exception ends it. */
  function Exec(owner: string, code: seq<Instr>, f: Frame): Outcome
    decreases |code|
  {
    if code == [] then Normal(f)
    else
      match ExecInstr(owner, code[0], f)
      case Normal(g) => Exec(owner, code[1..], g)
      case other => other
  }

  /** What one coverage record does to the map and to `prev_location`:
      `map[id ^ prev] := (byte)(map[id ^ prev] + 1)` and then `prev := id >> 1`. */
  function RecordEffect(m: seq<JByte>, prev: Int32, id: Int32): (r: (seq<JByte>, Int32))
    requires 0 <= Xor(id, prev) as int < |m|
    ensures |r.0| == |m| && r.1 == Shr1(id)
    ensures (r.0[Xor(id, prev)] as int - m[Xor(id, prev)] as int - 1) % 256 == 0
    ensures m[Xor(id, prev)] < 127 ==> r.0[Xor(id, prev)] == m[Xor(id, prev)] + 1
    ensures m[Xor(id, prev)] == 127 ==> r.0[Xor(id, prev)] == -128
    ensures forall k :: 0 <= k < |m| && k != Xor(id, prev) as int ==> r.0[k] == m[k]
  {
    var idx := Xor(id, prev) as int;
    (m[idx := I2B(m[idx] as int + 1)], Shr1(id))
  }

  lemma ExecCons(owner: string, i: Instr, rest: seq<Instr>, f: Frame, g: Frame)
    requires ExecInstr(owner, i, f) == Normal(g)
    ensures Exec(owner, [i] + rest, f) == Exec(owner, rest, g)
  {
    assert ([i] + rest)[0] == i && ([i] + rest)[1..] == rest;
  }

  /** Running from instruction `i` of `code`. */
  lemma ExecStep(owner: string, code: seq<Instr>, i: nat, f: Frame, g: Frame)
    requires i < |code| && ExecInstr(owner, code[i], f) == Normal(g)
    ensures Exec(owner, code[i..], f) == Exec(owner, code[i + 1..], g)
  {
    assert code[i..][0] == code[i] && code[i..][1..] == code[i + 1..];
  }

  lemma ExecConsStop(owner: string, i: Instr, rest: seq<Instr>, f: Frame)
    requires !ExecInstr(owner, i, f).Normal?
    ensures Exec(owner, [i] + rest, f) == ExecInstr(owner, i, f)
  {
    assert ([i] + rest)[0] == i;
  }

  /** The three kinds of field access a record block makes, one at a time. */
  lemma ExecGetMap(owner: string, f: Frame)
    ensures ExecInstr(owner, Field(GETSTATIC, owner, "map", "[B"), f) ==
            Normal(Push(f, if f.coverage.None? then NullRef else MapRef))
  {
  }

  lemma ExecGetPrev(owner: string, f: Frame)
    ensures ExecInstr(owner, Field(GETSTATIC, owner, "prev_location", "I"), f) == Normal(Push(f, IntVal(f.prev)))
  {
  }

  lemma ExecPutPrev(owner: string, f: Frame, v: Int32)
    requires |f.stack| >= 1 && f.stack[|f.stack| - 1] == IntVal(v)
    ensures ExecInstr(owner, PutPrev(owner), f) == Normal(f.(stack := f.stack[..|f.stack| - 1], prev := v))
  {
  }

  /** The first five instructions of a record block push the map reference and the tuple
      index twice. */
  lemma RecordBlockPrefix(owner: string, id: Int32, f: Frame)
    ensures var ref := if f.coverage.None? then NullRef else MapRef;
            var idx := IntVal(Xor(id, f.prev));
            Exec(owner, RecordBlock(owner, id), f) ==
            Exec(owner, RecordBlock(owner, id)[5..], f.(stack := f.stack + [ref, idx, ref, idx]))
  {
    RecordBlockPush(owner, id, f);
    RecordBlockIndex(owner, id, f);
  }

  /** Instructions 0 to 2 push the map reference, the location and `prev_location`. */
  lemma RecordBlockPush(owner: string, id: Int32, f: Frame)
    ensures var ref := if f.coverage.None? then NullRef else MapRef;
            Exec(owner, RecordBlock(owner, id), f) ==
            Exec(owner, RecordBlock(owner, id)[3..], f.(stack := f.stack + [ref, IntVal(id), IntVal(f.prev)]))
  {
    var rb := RecordBlock(owner, id);
    var ref := if f.coverage.None? then NullRef else MapRef;
    var f1 := Push(f, ref);
    var f2 := Push(f1, IntVal(id));
    var f3 := Push(f2, IntVal(f.prev));
    ExecGetMap(owner, f);
    ExecStep(owner, rb, 0, f, f1);
    ExecStep(owner, rb, 1, f1, f2);
    ExecGetPrev(owner, f2);
    ExecStep(owner, rb, 2, f2, f3);
    assert f3 == f.(stack := f.stack + [ref, IntVal(id), IntVal(f.prev)]);
  }

  /** Instructions 3 and 4 combine the two into the tuple index and duplicate it with the
      map reference. */
  lemma RecordBlockIndex(owner: string, id: Int32, f: Frame)
    ensures var ref := if f.coverage.None? then NullRef else MapRef;
            var idx := IntVal(Xor(id, f.prev));
            Exec(owner, RecordBlock(owner, id)[3..], f.(stack := f.stack + [ref, IntVal(id), IntVal(f.prev)])) ==
            Exec(owner, RecordBlock(owner, id)[5..], f.(stack := f.stack + [ref, idx, ref, idx]))
  {
    var rb := RecordBlock(owner, id);
    var s := f.stack;
    var ref := if f.coverage.None? then NullRef else MapRef;
    var idx := IntVal(Xor(id, f.prev));
    var f3 := f.(stack := s + [ref, IntVal(id), IntVal(f.prev)]);
    var f4 := f.(stack := s + [ref, idx]);
    var f5 := f.(stack := s + [ref, idx, ref, idx]);
    assert rb[3..] == [rb[3]] + ([rb[4]] + rb[5..]);
    assert f3.stack[..|f3.stack| - 2] == s + [ref];
    ExecCons(owner, rb[3], [rb[4]] + rb[5..], f3, f4);
    assert f4.stack + f4.stack[|f4.stack| - 2..] == f5.stack;
    ExecCons(owner, rb[4], rb[5..], f4, f5);
  }

  /** With the map present and the index inside it, the last seven instructions increment
      the slot (wrapping to a byte) and store the shifted location. */
  lemma RecordBlockSuffix(owner: string, id: Int32, f: Frame)
    requires f.coverage.Some? && 0 <= Xor(id, f.prev) as int < |f.coverage.value|
    ensures var idx := IntVal(Xor(id, f.prev));
            Exec(owner, RecordBlock(owner, id)[5..], f.(stack := f.stack + [MapRef, idx, MapRef, idx])) ==
            Normal(Frame(f.stack, Some(RecordEffect(f.coverage.value, f.prev, id).0),
                         RecordEffect(f.coverage.value, f.prev, id).1))
  {
    var idx := Xor(id, f.prev);
    var m := f.coverage.value;
    var new_v := Wrap32(m[idx] as int + 1);
    RecordBlockLoad(owner, id, f);
    RecordBlockStore(owner, id, f, new_v);
    assert new_v as int == m[idx] as int + 1;
  }

  /** Instructions 5 to 7 load the slot and add one. */
  lemma RecordBlockLoad(owner: string, id: Int32, f: Frame)
    requires f.coverage.Some? && 0 <= Xor(id, f.prev) as int < |f.coverage.value|
    ensures var idx := Xor(id, f.prev);
            var s := f.stack;
            Exec(owner, RecordBlock(owner, id)[5..], f.(stack := s + [MapRef, IntVal(idx), MapRef, IntVal(idx)])) ==
            Exec(owner, RecordBlock(owner, id)[8..],
                 f.(stack := s + [MapRef, IntVal(idx), IntVal(Wrap32(f.coverage.value[idx] as int + 1))]))
  {
    var rb := RecordBlock(owner, id);
    var s := f.stack;
    var idx := Xor(id, f.prev);
    var m := f.coverage.value;
    var old_v := m[idx] as int as Int32;
    var f5 := f.(stack := s + [MapRef, IntVal(idx), MapRef, IntVal(idx)]);
    var f6 := f.(stack := s + [MapRef, IntVal(idx), IntVal(old_v)]);
    var f7 := f.(stack := s + [MapRef, IntVal(idx), IntVal(old_v), IntVal(1)]);
    var f8 := f.(stack := s + [MapRef, IntVal(idx), IntVal(Wrap32(old_v as int + 1))]);
    assert f5.stack[..|f5.stack| - 2] == s + [MapRef, IntVal(idx)];
    ExecCons(owner, rb[5], rb[6..], f5, f6);
    ExecCons(owner, rb[6], rb[7..], f6, f7);
    assert f7.stack[..|f7.stack| - 2] == s + [MapRef, IntVal(idx)];
    ExecCons(owner, rb[7], rb[8..], f7, f8);
    assert rb[5..] == [rb[5]] + rb[6..];
  }

  /** Instructions 8 to 11 narrow the value to a byte, store it and write `prev_location`. */
  lemma RecordBlockStore(owner: string, id: Int32, f: Frame, v: Int32)
    requires f.coverage.Some? && 0 <= Xor(id, f.prev) as int < |f.coverage.value|
    ensures var idx := Xor(id, f.prev);
            var s := f.stack;
            Exec(owner, RecordBlock(owner, id)[8..], f.(stack := s + [MapRef, IntVal(idx), IntVal(v)])) ==
            Normal(Frame(s, Some(f.coverage.value[idx as int := I2B(I2B(v as int) as int)]), Shr1(id)))
  {
    var rb := RecordBlock(owner, id);
    var s := f.stack;
    var idx := Xor(id, f.prev);
    var m := f.coverage.value;
    var f8 := f.(stack := s + [MapRef, IntVal(idx), IntVal(v)]);
    var f9 := f.(stack := s + [MapRef, IntVal(idx), IntVal(I2B(v as int) as int as Int32)]);
    var m' := m[idx as int := I2B(I2B(v as int) as int)];
    var f10 := f.(stack := s, coverage := Some(m'));
    var f11 := Push(f10, IntVal(Shr1(id)));
    var f12 := f10.(prev := Shr1(id));
    assert f8.stack[..|f8.stack| - 1] == s + [MapRef, IntVal(idx)];
    ExecCons(owner, rb[8], rb[9..], f8, f9);
    assert f9.stack[..|f9.stack| - 3] == s;
    ExecCons(owner, rb[9], rb[10..], f9, f10);
    ExecCons(owner, rb[10], rb[11..], f10, f11);
    assert f11.stack[..|f11.stack| - 1] == s;
    assert rb[11..] == [rb[11]] + [];
    ExecPutPrev(owner, f11, Shr1(id));
    ExecCons(owner, rb[11], [], f11, f12);
  }

  /** The emitted record block, run on any operand stack, does exactly `RecordEffect` when the
      map is present and the tuple index is inside it, leaving the stack as it found it. With
      the map reference nulled (as the surrogate monitor does) the block throws a
      NullPointerException before it changes anything; with an index outside the map it
      throws an index exception. */
  lemma RecordBlockSemantics(owner: string, id: Int32, f: Frame)
    ensures f.coverage.None? ==> Exec(owner, RecordBlock(owner, id), f) == Threw(NullPointer)
    ensures f.coverage.Some? && !(0 <= Xor(id, f.prev) as int < |f.coverage.value|) ==>
              Exec(owner, RecordBlock(owner, id), f) == Threw(IndexOutOfBounds)
    ensures f.coverage.Some? && 0 <= Xor(id, f.prev) as int < |f.coverage.value| ==>
              Exec(owner, RecordBlock(owner, id), f) ==
              Normal(Frame(f.stack, Some(RecordEffect(f.coverage.value, f.prev, id).0),
                           RecordEffect(f.coverage.value, f.prev, id).1))
  {
    RecordBlockPrefix(owner, id, f);
    var rb := RecordBlock(owner, id);
    var ref := if f.coverage.None? then NullRef else MapRef;
    var idx := IntVal(Xor(id, f.prev));
    var f5 := f.(stack := f.stack + [ref, idx, ref, idx]);
    assert rb[5..] == [rb[5]] + rb[6..];
    if f.coverage.None? || !(0 <= Xor(id, f.prev) as int < |f.coverage.value|) {
      assert f5.stack[|f5.stack| - 2] == ref;
      ExecConsStop(owner, rb[5], rb[6..], f5);
    } else {
      RecordBlockSuffix(owner, id, f);
    }
  }

  // ---------------------------------------------------------------------------
  // What the rewriters add, and how to take it out again.

  /** What a visitor that adds nothing would forward for one event: annotations are not
      forwarded (the rewriters' `visitAnnotation` returns without calling the writer). */
  function Lift(e: Event): seq<Instr>
  {
    match e
    case Annotation(_) => []
    case Code => [Start]
    case Jump(op, t) => [JumpTo(op, t)]
    case Label(l) => [Mark(l)]
    case Insn(op) => [Op(op)]
  }

  function LiftAll(es: seq<Event>): seq<Instr>
  {
    if es == [] then [] else LiftAll(es[..|es| - 1]) + Lift(es[|es| - 1])
  }

  lemma {:induction false} LiftAllAppend(x: seq<Event>, y: seq<Event>)
    ensures LiftAll(x + y) == LiftAll(x) + LiftAll(y)
  {
    if y == [] {
      assert x + y == x;
    } else {
      var front := y[..|y| - 1];
      var e := y[|y| - 1];
      assert (x + y)[..|x + y| - 1] == x + front && (x + y)[|x + y| - 1] == e;
      LiftAllAppend(x, front);
      assert LiftAll(x + y) == LiftAll(x + front) + Lift(e);
      assert LiftAll(y) == LiftAll(front) + Lift(e);
      assert (LiftAll(x) + LiftAll(front)) + Lift(e) == LiftAll(x) + (LiftAll(front) + Lift(e));
    }
  }

  lemma {:induction false} LiftAllAnnotations(annots: seq<Event>)
    requires AllAnnotations(annots)
    ensures LiftAll(annots) == []
  {
    if annots != [] {
      assert AllAnnotations(annots[..|annots| - 1]);
      LiftAllAnnotations(annots[..|annots| - 1]);
    }
  }

  /** Removes every inserted instruction: a field access starts a 12-instruction record block,
      and a static call is a `_before_main`/`_after_main` hook (method events never carry
      field or method instructions). Everything else is kept, in order. */
  function Erase(out: seq<Instr>): seq<Instr>
    decreases |out|
  {
    if out == [] then []
    else if out[0].Field? && |out| >= 12 then Erase(out[12..])
    else if out[0].Invoke? then Erase(out[1..])
    else [out[0]] + Erase(out[1..])
  }

  lemma EraseRecord(owner: string, id: Int32, rest: seq<Instr>)
    ensures Erase(RecordBlock(owner, id) + rest) == Erase(rest)
  {
    var x := RecordBlock(owner, id) + rest;
    assert x[0].Field? && x[12..] == rest;
  }

  lemma EraseInvoke(i: Instr, rest: seq<Instr>)
    requires i.Invoke?
    ensures Erase([i] + rest) == Erase(rest)
  {
    assert ([i] + rest)[1..] == rest;
  }

  lemma EraseKeep(i: Instr, rest: seq<Instr>)
    requires !i.Field? && !i.Invoke?
    ensures Erase([i] + rest) == [i] + Erase(rest)
  {
    assert ([i] + rest)[1..] == rest;
  }

  /** Occurrences of `x` in `s`. */
  function Count(x: Instr, s: seq<Instr>): nat
  {
    if s == [] then 0 else Count(x, s[..|s| - 1]) + (if s[|s| - 1] == x then 1 else 0)
  }

  lemma {:induction false} CountAppend(x: Instr, a: seq<Instr>, b: seq<Instr>)
    ensures Count(x, a + b) == Count(x, a) + Count(x, b)
  {
    if b != [] {
      assert (a + b)[..|a + b| - 1] == a + b[..|b| - 1];
      CountAppend(x, a, b[..|b| - 1]);
    } else {
      assert a + b == a;
    }
  }

  lemma CountOne(x: Instr, i: Instr)
    ensures Count(x, [i]) == if i == x then 1 else 0
  {
    assert [i][..0] == [];
  }

  lemma {:induction false} CountPresent(x: Instr, s: seq<Instr>, j: int)
    requires 0 <= j < |s| && s[j] == x
    ensures Count(x, s) > 0
  {
    if j < |s| - 1 {
      CountPresent(x, s[..|s| - 1], j);
    }
  }

  lemma {:induction false} CountAbsent(x: Instr, s: seq<Instr>)
    requires forall j :: 0 <= j < |s| ==> s[j] != x
    ensures Count(x, s) == 0
  {
    if s != [] {
      CountAbsent(x, s[..|s| - 1]);
    }
  }

  /** A record block holds exactly one write of `prev_location` and no method call. */
  lemma CountRecordBlock(owner: string, id: Int32, x: Instr)
    requires x == PutPrev(owner) || x.Invoke?
    ensures Count(x, RecordBlock(owner, id)) == if x == PutPrev(owner) then 1 else 0
  {
    var rb := RecordBlock(owner, id);
    assert rb[..|rb| - 1] == rb[..11];
    CountAbsent(x, rb[..11]);
  }

  /** The same for a jump or label followed by its record block. */
  lemma CountEdgeBlock(y: Instr, owner: string, id: Int32, x: Instr)
    requires y.JumpTo? || y.Mark?
    requires x == PutPrev(owner) || x.Invoke?
    ensures Count(x, [y] + RecordBlock(owner, id)) == if x == PutPrev(owner) then 1 else 0
  {
    CountAppend(x, [y], RecordBlock(owner, id));
    CountOne(x, y);
    CountRecordBlock(owner, id, x);
  }

  // ---------------------------------------------------------------------------
  // Shape invariants of rewritten code.

  /** A complete record block for an in-range location starts at `j`. */
  predicate RecordAt(out: seq<Instr>, j: int, owner: string)
  {
    0 <= j && j + 12 <= |out| && out[j + 1].LdcInt? && 0 <= out[j + 1].value as int < MapSize &&
    out[j..j + 12] == RecordBlock(owner, out[j + 1].value)
  }

  /** Instruction `j` is a jump or a label. */
  predicate IsControl(out: seq<Instr>, j: int)
  {
    0 <= j < |out| && (out[j].JumpTo? || out[j].Mark?)
  }

  /** Instruction `j` is followed by one record block and then not by the start of another. */
  predicate RecordedAfter(out: seq<Instr>, j: int, owner: string)
  {
    RecordAt(out, j + 1, owner) && (j + 13 < |out| ==> !out[j + 13].Field?)
  }

  /** Every jump and every label is immediately followed by one record block, and the
      instruction after that block (if any) does not start a second one. */
  predicate ControlRecorded(out: seq<Instr>, owner: string)
  {
    forall j :: 0 <= j < |out| && IsControl(out, j) ==> RecordedAfter(out, j, owner)
  }

  predicate IsReturn(out: seq<Instr>, j: int)
  {
    0 <= j < |out| && out[j] == Op(RETURN)
  }

  predicate IsAfterMain(out: seq<Instr>, j: int, owner: string)
  {
    0 <= j < |out| && out[j] == AfterMainCall(owner)
  }

  /** Every `RETURN` is immediately preceded by a call of `_after_main`, and every such call
      is immediately followed by a `RETURN`. */
  predicate ReturnsHooked(out: seq<Instr>, owner: string)
  {
    && (forall j :: 0 <= j < |out| && IsReturn(out, j) ==> IsAfterMain(out, j - 1, owner))
    && (forall j :: 0 <= j < |out| && IsAfterMain(out, j, owner) ==> IsReturn(out, j + 1))
  }

  /** Appending a piece that keeps the shape itself, and does not start with a record block,
      keeps the shape of the whole. */
  lemma ControlRecordedAppend(out: seq<Instr>, ch: seq<Instr>, owner: string)
    requires ControlRecorded(out, owner) && ControlRecorded(ch, owner)
    requires ch != [] ==> !ch[0].Field?
    ensures ControlRecorded(out + ch, owner)
  {
    var all := out + ch;
    forall j | IsControl(all, j)
      ensures RecordedAfter(all, j, owner)
    {
      if j < |out| {
        assert IsControl(out, j) && RecordedAfter(out, j, owner);
        assert all[j + 1..j + 13] == out[j + 1..j + 13];
        if j + 13 < |out| {
          assert all[j + 13] == out[j + 13];
        } else if j + 13 < |all| {
          assert all[j + 13] == ch[0];
        }
      } else {
        var k := j - |out|;
        assert ch[k] == all[j];
        assert IsControl(ch, k) && RecordedAfter(ch, k, owner);
        assert all[j + 1..j + 13] == ch[k + 1..k + 13];
        if j + 13 < |all| {
          assert all[j + 13] == ch[k + 13];
        }
      }
    }
  }

  /** The same for the return hooks: the piece must not start with a bare `RETURN`. */
  lemma ReturnsHookedAppend(out: seq<Instr>, ch: seq<Instr>, owner: string)
    requires ReturnsHooked(out, owner) && ReturnsHooked(ch, owner)
    requires ch != [] ==> ch[0] != Op(RETURN)
    ensures ReturnsHooked(out + ch, owner)
  {
    var all := out + ch;
    forall j | IsReturn(all, j)
      ensures IsAfterMain(all, j - 1, owner)
    {
      if j < |out| {
        assert IsReturn(out, j) && IsAfterMain(out, j - 1, owner);
      } else {
        assert IsReturn(ch, j - |out|) && IsAfterMain(ch, j - |out| - 1, owner);
      }
    }
    forall j | IsAfterMain(all, j, owner)
      ensures IsReturn(all, j + 1)
    {
      if j < |out| {
        assert IsAfterMain(out, j, owner) && IsReturn(out, j + 1);
      } else {
        assert IsAfterMain(ch, j - |out|, owner) && IsReturn(ch, j - |out| + 1);
      }
    }
  }

  /** Code with no jump, no label, no `RETURN` and no end hook in it has both shapes. The
      start of a rewritten method is such code. */
  lemma StraightShape(code: seq<Instr>, owner: string)
    requires forall j :: 0 <= j < |code| ==>
      !code[j].JumpTo? && !code[j].Mark? && code[j] != Op(RETURN) && code[j] != AfterMainCall(owner)
    ensures ControlRecorded(code, owner) && ReturnsHooked(code, owner)
  {
  }

  /** A jump or label followed by its record block has the rewritten shape. */
  lemma EdgeShape(x: Instr, owner: string, id: Int32)
    requires x.JumpTo? || x.Mark?
    requires 0 <= id as int < MapSize
    ensures var ch := [x] + RecordBlock(owner, id);
      ControlRecorded(ch, owner) && ReturnsHooked(ch, owner)
  {
    var rb := RecordBlock(owner, id);
    var ch := [x] + rb;
    assert ch[1..13] == rb;
    assert RecordedAfter(ch, 0, owner);
    forall j | 0 < j < |ch|
      ensures !IsControl(ch, j) && !IsReturn(ch, j) && !IsAfterMain(ch, j, owner)
    {
      assert ch[j] == rb[j - 1];
    }
    assert !IsReturn(ch, 0) && !IsAfterMain(ch, 0, owner);
  }
}
