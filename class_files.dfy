/** The parts of a compiled class that the rewriters look at: its raw bytes with the
    constant-pool item offsets a class reader reports, its internal name, and its methods as
    event streams. The instrumentation marker and the byte-level test for it live here. */
module ClassFiles {
  import opened JavaTypes
  import opened Wrappers
  import opened Bytecode

  /** One method as the class reader presents it: access flags and name (to `visitMethod`),
      the descriptors of its annotations and, unless it is abstract or native, its code. */
  datatype MethodDecl = MethodDecl(access: bv32, name: string, annotations: seq<string>, code: Option<seq<Event>>)

  /** A method's code holds only instructions and labels. */
  predicate MethodOk(m: MethodDecl)
  {
    m.code.Some? ==> AllBody(m.code.value)
  }

  /** One `visitAnnotation` call per annotation descriptor. */
  function Annots(ds: seq<string>): (r: seq<Event>)
    ensures |r| == |ds| && AllAnnotations(r)
    ensures forall i :: 0 <= i < |ds| ==> r[i] == Annotation(ds[i])
  {
    if ds == [] then [] else Annots(ds[..|ds| - 1]) + [Annotation(ds[|ds| - 1])]
  }

  lemma {:induction false} DescsOfAnnots(ds: seq<string>)
    ensures Descs(Annots(ds)) == ds
  {
    if ds != [] {
      DescsOfAnnots(ds[..|ds| - 1]);
      var r := Annots(ds);
      assert r[..|r| - 1] == Annots(ds[..|ds| - 1]);
    }
  }

  /** The calls a class reader makes on the method visitor, in order. */
  function Events(m: MethodDecl): seq<Event>
  {
    Annots(m.annotations) + (if m.code.Some? then [Code] + m.code.value else [])
  }

  /** What a successfully constructed class reader offers: the byte offset of every
      constant-pool item (just past its tag byte), the internal class name and the methods. */
  datatype ClassView = ClassView(items: seq<int>, name: string, methods: seq<MethodDecl>)

  /** The marker string both runtime classes carry as a constant. */
  const MarkerText: string := "__JAVA-AFL-INSTRUMENTED-CLASSFILE__"

  /** `MarkerText.getBytes()`: the marker is plain ASCII. */
  const MarkerBytes: seq<JByte> :=
    [95, 95, 74, 65, 86, 65, 45, 65, 70, 76, 45, 73, 78, 83, 84, 82, 85, 77,
     69, 78, 84, 69, 68, 45, 67, 76, 65, 83, 83, 70, 73, 76, 69, 95, 95]

  lemma MarkerBytesAreText()
    ensures |MarkerBytes| == |MarkerText| == 35
    ensures forall i :: 0 <= i < 35 ==> MarkerBytes[i] as int == MarkerText[i] as int
    ensures forall i :: 0 <= i < 35 ==> MarkerBytes[i] != 0
  {
  }

  /** Offsets a class reader can hand out: each item has at least two bytes after its tag. */
  predicate ItemsInBounds(b: seq<JByte>, items: seq<int>)
  {
    forall i :: 0 <= i < |items| ==> 0 <= items[i] && items[i] + 1 < |b|
  }

  /** The item table a class reader builds: slot 0 is unused and holds 0, so does the slot
      after each long or double constant, and the other items appear in the file in pool
      order. */
  predicate AsmLayout(items: seq<int>)
  {
    && (|items| > 0 ==> items[0] == 0)
    && forall i, j :: 0 <= i < j < |items| && items[j] != 0 ==> items[i] < items[j]
  }

  /** `b[index] * 256 + b[index + 1]` on Java's signed bytes. */
  function ItemSize(b: seq<JByte>, index: int): int
    requires 0 <= index && index + 1 < |b|
  {
    b[index] as int * 256 + b[index + 1] as int
  }

  /** The signed computation still reads a length of 35 only from the bytes 0x00 0x23. */
  lemma ItemSizeIsMarkerLength(b: seq<JByte>, index: int)
    requires 0 <= index && index + 1 < |b|
    ensures ItemSize(b, index) == |MarkerBytes| <==> b[index] == 0 && b[index + 1] == 35
  {
  }

  /** A UTF-8 constant holding exactly the marker starts at `index`: a big-endian length of
      35, then the marker bytes. */
  predicate MarkerAt(b: seq<JByte>, index: int)
  {
    0 <= index && index + 2 + |MarkerBytes| <= |b| &&
    b[index] == 0 && b[index + 1] == 35 && b[index + 2..index + 2 + |MarkerBytes|] == MarkerBytes
  }

  /** The item at `index` declares the marker's length but its bytes would run past the end. */
  predicate Overruns(b: seq<JByte>, index: int)
  {
    0 <= index && index + 1 < |b| && ItemSize(b, index) == |MarkerBytes| && |b| < index + 2 + |MarkerBytes|
  }

  /** Some constant-pool item is the marker. */
  predicate HasMarkerItem(b: seq<JByte>, items: seq<int>)
  {
    exists i :: 0 <= i < |items| && MarkerAt(b, items[i])
  }

  /** The bytes of a CONSTANT_Utf8 pool entry: tag 1, big-endian length, contents. */
  function Utf8Entry(text: seq<JByte>): seq<JByte>
    requires |text| < 128
  {
    [1, 0, |text| as JByte] + text
  }

  /** A class whose constant pool holds the marker string as a UTF-8 constant (as the runtime
      classes that declare `INSTRUMENTATION_MARKER` do) carries the marker item. */
  lemma MarkerConstantIsMarkerItem(b: seq<JByte>, items: seq<int>, k: int)
    requires 0 <= k < |items| && 1 <= items[k] && items[k] - 1 + 38 <= |b|
    requires b[items[k] - 1..items[k] - 1 + 38] == Utf8Entry(MarkerBytes)
    ensures HasMarkerItem(b, items)
  {
    var o := items[k] - 1;
    assert b[o + 1] == Utf8Entry(MarkerBytes)[1] && b[o + 2] == Utf8Entry(MarkerBytes)[2];
    assert b[o + 3..o + 38] == Utf8Entry(MarkerBytes)[3..];
    assert MarkerAt(b, items[k]);
  }
}
