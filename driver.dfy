/** The per-class driver of javafl/JavaAflInstrument.java: one rewriting attempt
    `try_instrument_class`, with the bytecode library as an oracle, and the retry loop
    `instrument_class`, which lowers the instrumentation ratio along a fixed ladder until the
    rewritten class fits. */
module Driver {
  import opened JavaTypes
  import opened Wrappers
  import opened Bytecode
  import opened ClassFiles
  import opened MethodRewrite
  import opened Instrument

  /** `InstrumentedClass`: where to write the class (below the output directory) and its bytes. */
  datatype InstrumentedClass = InstrumentedClass(directory: string, data: seq<JByte>)

  /** The bytecode library as one attempt sees it.
      `read`: the `ClassReader` constructor (`None` when it throws `IllegalArgumentException`).
      `acceptFailsAfter`: `Some(n)` when `accept` throws after the first `n` methods went
      through the visitors (a type missing while frames are computed, or a malformed method).
      `write`: the bytes of the writer that received the rewritten methods, after the marker
      string was added to its constant pool.
      `tooLarge`: `toByteArray` throws because a method outgrew the 64 KB limit. */
  datatype Asm = Asm(
    read: seq<JByte> -> Option<ClassView>,
    acceptFailsAfter: seq<JByte> -> Option<nat>,
    write: (seq<JByte>, seq<seq<Instr>>) -> seq<JByte>,
    tooLarge: (seq<JByte>, seq<seq<Instr>>) -> bool)

  /** The two generators an attempt can use: `new Random(Arrays.hashCode(input))` in
      deterministic mode, and otherwise the unseeded `new Random()` of the given attempt. */
  datatype RandomSource = RandomSource(seeded: seq<JByte> -> Draws, unseeded: nat -> Draws)

  /** A parsed class offers in-bounds item offsets and methods whose code is well formed. */
  predicate ReadOk(asm: Asm, input: seq<JByte>)
  {
    asm.read(input).Some? ==>
      var v := asm.read(input).value;
      ItemsInBounds(input, v.items) && forall k :: 0 <= k < |v.methods| ==> MethodOk(v.methods[k])
  }

  /** `total_locations` and `total_classfiles`. */
  datatype Counters = Counters(locations: int, classfiles: int)

  /** An attempt returns a class, or throws the retryable failure that carries one. */
  datatype TryResult = Done(cls: InstrumentedClass) | Retry(cls: InstrumentedClass)

  datatype TryOutcome = TryOutcome(result: TryResult, counters: Counters)

  predicate EndsWith(s: string, suffix: string)
  {
    |suffix| <= |s| && s[|s| - |suffix|..] == suffix
  }

  /** The index of the last `/` of `s`, or -1. */
  function LastSlash(s: string): (r: int)
    ensures -1 <= r < |s|
    ensures r >= 0 ==> s[r] == '/'
    ensures forall j :: r < j < |s| ==> s[j] != '/'
  {
    if s == [] then -1
    else if s[|s| - 1] == '/' then |s| - 1
    else LastSlash(s[..|s| - 1])
  }

  /** `new File(name).getParentFile()` as a string, `""` when there is none. */
  function ParentDir(name: string): string
  {
    var i := LastSlash(name);
    if i < 0 then ""
    else if i == 0 then (if |name| > 1 then "/" else "")
    else name[..i]
  }

  /** A nested internal name splits into its directory, a slash and a simple name. */
  lemma ParentDirSplit(name: string)
    ensures LastSlash(name) < 0 ==> ParentDir(name) == "" && forall j :: 0 <= j < |name| ==> name[j] != '/'
    ensures LastSlash(name) > 0 ==>
      var d := ParentDir(name);
      |d| < |name| && name == d + "/" + name[|d| + 1..] &&
      forall j :: |d| < j < |name| ==> name[j] != '/'
  {
    var i := LastSlash(name);
    if i > 0 {
      assert name == name[..i] + "/" + name[i + 1..];
    }
  }

  function Min(a: nat, b: nat): nat
  {
    if a < b then a else b
  }

  /** The stream of the attempt's `Random`. */
  function AttemptDraws(rng: RandomSource, input: seq<JByte>, o: Options, attempt: nat): Draws
  {
    if o.deterministic then rng.seeded(input) else rng.unseeded(attempt)
  }

  /** The visitors over the given methods, from a fresh generator and the current counter. */
  function Rewrite(o: Options, draws: Draws, locations: int, ms: seq<MethodDecl>): ClassState
  {
    VisitAll(o, draws, ClassState([], 0, locations), ms)
  }

  /** `try_instrument_class`: the pass-through cases (not a class file name, empty input, a
      class the reader refuses, a class that already carries the marker), then rewriting;
      a failure inside `accept` keeps the input, a class that outgrows the method size limit
      is a retryable failure. */
  function TrySpec(asm: Asm, rng: RandomSource, input: seq<JByte>, filename: string, o: Options,
                   attempt: nat, k: Counters): TryOutcome
    requires ReadOk(asm, input)
  {
    if !EndsWith(filename, ".class") || |input| == 0 || asm.read(input).None? then
      TryOutcome(Done(InstrumentedClass("", input)), k)
    else
      var view := asm.read(input).value;
      var dir := ParentDir(view.name);
      if ScanFrom(input, view.items, 0) then
        TryOutcome(Done(InstrumentedClass(dir, input)), k.(classfiles := k.classfiles - 1))
      else
        var draws := AttemptDraws(rng, input, o, attempt);
        match asm.acceptFailsAfter(input)
        case Some(n) =>
          var cs := Rewrite(o, draws, k.locations, view.methods[..Min(n, |view.methods|)]);
          TryOutcome(Done(InstrumentedClass(dir, input)), k.(locations := cs.locations))
        case None =>
          var cs := Rewrite(o, draws, k.locations, view.methods);
          if asm.tooLarge(input, cs.outs) then
            TryOutcome(Retry(InstrumentedClass(dir, input)), k.(locations := cs.locations))
          else
            TryOutcome(Done(InstrumentedClass(dir, asm.write(input, cs.outs))), k.(locations := cs.locations))
  }

  /** The pass-through cases return the input unchanged: with directory `""` and no counter
      change for a name that is not a class file, an empty input or an unreadable class; with
      the class's parent directory and `total_classfiles` one lower for a class that already
      carries the marker item in an item table as the class reader builds it. */
  lemma TryPassThrough(asm: Asm, rng: RandomSource, input: seq<JByte>, filename: string, o: Options,
                       attempt: nat, k: Counters)
    requires ReadOk(asm, input)
    ensures var t := TrySpec(asm, rng, input, filename, o, attempt, k);
      (!EndsWith(filename, ".class") || |input| == 0 || asm.read(input).None?) ==>
        t == TryOutcome(Done(InstrumentedClass("", input)), k)
    ensures var t := TrySpec(asm, rng, input, filename, o, attempt, k);
      (EndsWith(filename, ".class") && |input| > 0 && asm.read(input).Some? &&
       AsmLayout(asm.read(input).value.items) && HasMarkerItem(input, asm.read(input).value.items)) ==>
        t == TryOutcome(Done(InstrumentedClass(ParentDir(asm.read(input).value.name), input)),
                        k.(classfiles := k.classfiles - 1))
  {
    if asm.read(input).Some? && AsmLayout(asm.read(input).value.items) {
      ScanExact(input, asm.read(input).value.items);
    }
  }

  /** A retryable failure carries the input bytes and never touches `total_classfiles`. */
  lemma TryRetry(asm: Asm, rng: RandomSource, input: seq<JByte>, filename: string, o: Options,
                 attempt: nat, k: Counters)
    requires ReadOk(asm, input)
    ensures var t := TrySpec(asm, rng, input, filename, o, attempt, k);
      t.result.Retry? ==> t.result.cls.data == input && t.counters.classfiles == k.classfiles
  {
  }

  /** An attempt changes the bytes only by writing the class from the rewritten methods, one
      per method, each carrying the coverage code, and then `total_locations` has grown by
      exactly their record blocks. */
  lemma TryWritten(asm: Asm, rng: RandomSource, input: seq<JByte>, filename: string, o: Options,
                   attempt: nat, k: Counters)
    requires ReadOk(asm, input)
    ensures var t := TrySpec(asm, rng, input, filename, o, attempt, k);
      t.result.cls.data != input ==>
        && t.result.Done? && asm.read(input).Some?
        && var ms := asm.read(input).value.methods;
           var cs := Rewrite(o, AttemptDraws(rng, input, o, attempt), k.locations, ms);
           && t.result.cls.data == asm.write(input, cs.outs)
           && t.result.cls.directory == ParentDir(asm.read(input).value.name)
           && AllRewritten(o, ms, cs.outs)
           && t.counters == Counters(k.locations + RecordsIn(cs.outs), k.classfiles)
  {
    var t := TrySpec(asm, rng, input, filename, o, attempt, k);
    if t.result.cls.data != input {
      var view := asm.read(input).value;
      var cs := Rewrite(o, AttemptDraws(rng, input, o, attempt), k.locations, view.methods);
      assert !ScanFrom(input, view.items, 0) && asm.acceptFailsAfter(input).None?;
      assert t == TryOutcome(Done(InstrumentedClass(ParentDir(view.name), asm.write(input, cs.outs))),
                             k.(locations := cs.locations));
      VisitAllFacts(o, AttemptDraws(rng, input, o, attempt), ClassState([], 0, k.locations), view.methods);
    }
  }

  // ---------------------------------------------------------------------------
  // The retry ladder.

  /** `max_ratios` of `instrument_class`. */
  const Ladder: seq<int> := [80, 65, 50, 35, 25, 15, 10, 5, 2, 1, 0]

  /** The inner loop over the ladder: the first value below `r`, or `r` when none is. */
  function FirstBelow(l: seq<int>, r: int): int
  {
    if l == [] then r else if r > l[0] then l[0] else FirstBelow(l[1..], r)
  }

  /** The ratio of the next attempt. */
  function NextRatio(r: int): int
  {
    FirstBelow(Ladder, r)
  }

  predicate Descending(l: seq<int>)
  {
    forall i, j :: 0 <= i < j < |l| ==> l[i] > l[j]
  }

  /** How many values of `l` lie below `r`. */
  function Below(l: seq<int>, r: int): nat
  {
    if l == [] then 0 else (if l[0] < r then 1 else 0) + Below(l[1..], r)
  }

  /** On a descending list the first value below `r` is the largest one below it, one fewer
      value lies below it than below `r`, and it is `r` itself only when nothing is below. */
  lemma {:induction false} FirstBelowIsLargest(l: seq<int>, r: int)
    requires Descending(l)
    ensures Below(l, r) == 0 ==> FirstBelow(l, r) == r
    ensures Below(l, r) > 0 ==>
      && FirstBelow(l, r) in l && FirstBelow(l, r) < r
      && (forall i :: 0 <= i < |l| && l[i] < r ==> l[i] <= FirstBelow(l, r))
      && Below(l, FirstBelow(l, r)) == Below(l, r) - 1
  {
    if l != [] {
      assert Descending(l[1..]);
      FirstBelowIsLargest(l[1..], r);
      if r > l[0] {
        BelowAll(l[1..], r);
        BelowAll(l[1..], l[0]);
      } else {
        BelowNone(l, r);
        if Below(l, r) > 0 {
          assert FirstBelow(l, r) == FirstBelow(l[1..], r);
          assert forall i :: 1 <= i < |l| ==> l[i] == l[1..][i - 1];
        }
      }
    }
  }

  lemma {:induction false} BelowAll(l: seq<int>, r: int)
    requires forall i :: 0 <= i < |l| ==> l[i] < r
    ensures Below(l, r) == |l|
  {
    if l != [] {
      BelowAll(l[1..], r);
    }
  }

  /** When the head is not below `r`, neither is anything else of a descending list below
      some value at most the head: `Below` reads only the tail. */
  lemma BelowNone(l: seq<int>, r: int)
    requires Descending(l) && l != [] && r <= l[0]
    ensures Below(l, r) == Below(l[1..], r)
  {
  }

  /** The number of ladder steps left below a ratio. */
  function Rank(r: int): nat
  {
    Below(Ladder, r)
  }

  lemma LadderDescending()
    ensures Descending(Ladder) && |Ladder| == 11
  {
  }

  /** A positive ratio moves to the largest ladder value strictly below it, one rung down;
      a ratio of 0 or less has no rung below and stays. At most 11 rungs lie below any ratio. */
  lemma NextRatioFacts(r: int)
    ensures r > 0 ==>
      && NextRatio(r) < r && NextRatio(r) >= 0 && NextRatio(r) in Ladder
      && (forall i :: 0 <= i < |Ladder| && Ladder[i] < r ==> Ladder[i] <= NextRatio(r))
      && Rank(NextRatio(r)) + 1 == Rank(r)
    ensures r <= 0 ==> NextRatio(r) == r && Rank(r) == 0
    ensures Rank(r) <= 11
  {
    LadderDescending();
    FirstBelowIsLargest(Ladder, r);
    BelowAtMost(Ladder, r);
    if r > 0 {
      assert Ladder[10] == 0 && Ladder[10] < r;
      BelowPositive(Ladder, r, 10);
    } else {
      BelowAllAbove(Ladder, r);
    }
  }

  lemma {:induction false} BelowAtMost(l: seq<int>, r: int)
    ensures Below(l, r) <= |l|
  {
    if l != [] {
      BelowAtMost(l[1..], r);
    }
  }

  lemma {:induction false} BelowPositive(l: seq<int>, r: int, k: int)
    requires 0 <= k < |l| && l[k] < r
    ensures Below(l, r) > 0
  {
    if k > 0 {
      BelowPositive(l[1..], r, k - 1);
    }
  }

  lemma {:induction false} BelowAllAbove(l: seq<int>, r: int)
    requires forall i :: 0 <= i < |l| ==> l[i] >= r
    ensures Below(l, r) == 0
  {
    if l != [] {
      BelowAllAbove(l[1..], r);
    }
  }

  /** The inner `for` over `max_ratios` with its `break`. */
  method LowerRatio(ratio: int) returns (r: int)
    ensures r == NextRatio(ratio)
  {
    var maxRatios := Ladder;
    r := ratio;
    var j := 0;
    while j < |maxRatios|
      invariant 0 <= j <= |maxRatios|
      invariant FirstBelow(maxRatios, ratio) == FirstBelow(maxRatios[j..], ratio)
    {
      assert maxRatios[j..][1..] == maxRatios[j + 1..];
      if ratio > maxRatios[j] {
        r := maxRatios[j];
        break;
      }
      j := j + 1;
    }
  }

  /** The outcome of `instrument_class`: the class, the counters and the ratio of every
      attempt made; or the `AssertionError` after 100 attempts. */
  datatype RetryOutcome =
    | Finished(cls: InstrumentedClass, counters: Counters, ratios: seq<int>)
    | Exhausted(counters: Counters)

  /** One attempt at a given ratio, attempt number and counters. */
  type Attempt = (int, nat, Counters) -> TryOutcome

  /** The loop of `instrument_class` from attempt `attempt` on, over any attempt function:
      after a retryable failure the location counter is put back, and then either the ratio
      was already 0 and the failure's class is the result, or the next attempt runs one rung
      lower. */
  function RetryLoop(attempts: Attempt, ratio: int, attempt: nat, k: Counters): RetryOutcome
    decreases 100 - attempt
  {
    if attempt >= 100 then Exhausted(k)
    else
      var t := attempts(ratio, attempt, k);
      var restored := t.counters.(locations := k.locations);
      if t.result.Done? then Finished(t.result.cls, t.counters, [ratio])
      else if ratio == 0 then Finished(t.result.cls, restored, [ratio])
      else Prefixed([ratio], RetryLoop(attempts, NextRatio(ratio), attempt + 1, restored))
  }

  /** The outcome of a later attempt, with the ratios of the earlier ones in front. */
  function Prefixed(rs: seq<int>, r: RetryOutcome): RetryOutcome
  {
    match r
    case Finished(cls, ks, later) => Finished(cls, ks, rs + later)
    case Exhausted(ks) => Exhausted(ks)
  }

  /** One turn of the loop, with the ratios already tried in front. */
  lemma RetryTurn(attempts: Attempt, tried: seq<int>, ratio: int, attempt: nat, k: Counters)
    requires attempt < 100
    ensures var t := attempts(ratio, attempt, k);
      var restored := t.counters.(locations := k.locations);
      Prefixed(tried, RetryLoop(attempts, ratio, attempt, k)) ==
        if t.result.Done? then Finished(t.result.cls, t.counters, tried + [ratio])
        else if ratio == 0 then Finished(t.result.cls, restored, tried + [ratio])
        else Prefixed(tried + [ratio], RetryLoop(attempts, NextRatio(ratio), attempt + 1, restored))
  {
    var t := attempts(ratio, attempt, k);
    if t.result.Retry? && ratio != 0 {
      PrefixedTwice(tried, [ratio], RetryLoop(attempts, NextRatio(ratio), attempt + 1, t.counters.(locations := k.locations)));
    }
  }

  lemma PrefixedTwice(a: seq<int>, b: seq<int>, r: RetryOutcome)
    ensures Prefixed(a, Prefixed(b, r)) == Prefixed(a + b, r)
  {
    if r.Finished? {
      assert a + (b + r.ratios) == (a + b) + r.ratios;
    }
  }

  /** `try_instrument_class` on one class, at the given ratio. */
  function TryAt(asm: Asm, rng: RandomSource, input: seq<JByte>, filename: string, o: Options): Attempt
    requires ReadOk(asm, input)
  {
    (ratio: int, attempt: nat, k: Counters) => TrySpec(asm, rng, input, filename, o.(ratio := ratio), attempt, k)
  }

  /** `instrument_class` on one class. */
  function RetrySpec(asm: Asm, rng: RandomSource, input: seq<JByte>, filename: string, o: Options,
                     k: Counters): RetryOutcome
    requires ReadOk(asm, input)
  {
    RetryLoop(TryAt(asm, rng, input, filename, o), o.ratio, 0, k)
  }

  /** From a ratio of 0 or more the loop ends before its bound: the attempts run at the given
      ratio and then down the ladder one rung at a time, strictly decreasing, and there are
      at most one more of them than rungs below the starting ratio. */
  lemma {:induction false} RetryEnds(attempts: Attempt, ratio: int, attempt: nat, k: Counters)
    requires ratio >= 0 && attempt + Rank(ratio) < 100
    decreases 100 - attempt
    ensures var r := RetryLoop(attempts, ratio, attempt, k);
      && r.Finished?
      && 1 <= |r.ratios| <= Rank(ratio) + 1
      && r.ratios[0] == ratio
      && DownTheLadder(r.ratios)
  {
    var t := attempts(ratio, attempt, k);
    if t.result.Retry? && ratio != 0 {
      NextRatioFacts(ratio);
      var restored := t.counters.(locations := k.locations);
      RetryEnds(attempts, NextRatio(ratio), attempt + 1, restored);
      var rest := RetryLoop(attempts, NextRatio(ratio), attempt + 1, restored);
      DownTheLadderCons(ratio, rest.ratios);
    }
  }

  /** Each ratio after the first is the next rung below the one before it. */
  predicate DownTheLadder(rs: seq<int>)
  {
    forall i :: 0 < i < |rs| ==> rs[i] == NextRatio(rs[i - 1]) && rs[i] < rs[i - 1]
  }

  lemma DownTheLadderCons(ratio: int, rest: seq<int>)
    requires DownTheLadder(rest) && rest != [] && rest[0] == NextRatio(ratio) < ratio
    ensures DownTheLadder([ratio] + rest)
  {
    var rs := [ratio] + rest;
    forall i | 0 < i < |rs|
      ensures rs[i] == NextRatio(rs[i - 1]) && rs[i] < rs[i - 1]
    {
      if i > 1 {
        assert rs[i] == rest[i - 1] && rs[i - 1] == rest[i - 2];
      }
    }
  }

  /** With the ratios `main` accepts (0 to 100) `instrument_class` returns within 12
      attempts, so its closing assertion cannot be reached. */
  lemma RetryWithinTwelve(asm: Asm, rng: RandomSource, input: seq<JByte>, filename: string,
                          o: Options, k: Counters)
    requires ReadOk(asm, input) && 0 <= o.ratio <= 100
    ensures var r := RetrySpec(asm, rng, input, filename, o, k);
      r.Finished? && |r.ratios| <= 12
  {
    NextRatioFacts(o.ratio);
    RetryEnds(TryAt(asm, rng, input, filename, o), o.ratio, 0, k);
  }

  /** A retryable failure leaves `total_classfiles` alone and carries the input bytes. */
  predicate RetryKeeps(attempts: Attempt, input: seq<JByte>, ratio: int, attempt: nat, k: Counters)
  {
    var t := attempts(ratio, attempt, k);
    t.result.Retry? ==> t.counters.classfiles == k.classfiles && t.result.cls.data == input
  }

  /** Earlier attempts leave no trace: the result and the counters are those of the last
      attempt run from the counters at entry, except that a retryable failure at ratio 0
      returns its class (the input bytes) with the counters as they were at entry. */
  lemma {:induction false} RetryLastAttempt(attempts: Attempt, input: seq<JByte>, ratio: int, attempt: nat, k: Counters)
    returns (last: int, n: nat)
    requires forall r: int, a: nat :: RetryKeeps(attempts, input, r, a, k)
    decreases 100 - attempt
    ensures var r := RetryLoop(attempts, ratio, attempt, k);
      r.Finished? ==>
        && |r.ratios| == n - attempt + 1 && r.ratios[n - attempt] == last
        && var t := attempts(last, n, k);
           && r.cls == t.result.cls
           && (t.result.Done? ==> r.counters == t.counters)
           && (t.result.Retry? ==> last == 0 && r.counters == k && r.cls.data == input)
    ensures var r := RetryLoop(attempts, ratio, attempt, k);
      r.Exhausted? ==> r.counters == k
  {
    last, n := ratio, attempt;
    if attempt < 100 {
      var t := attempts(ratio, attempt, k);
      assert RetryKeeps(attempts, input, ratio, attempt, k);
      if t.result.Retry? {
        var restored := t.counters.(locations := k.locations);
        assert restored == k;
        if ratio != 0 {
          last, n := RetryLastAttempt(attempts, input, NextRatio(ratio), attempt + 1, k);
          var rest := RetryLoop(attempts, NextRatio(ratio), attempt + 1, k);
          if rest.Finished? {
            var r := RetryLoop(attempts, ratio, attempt, k);
            assert r.ratios == [ratio] + rest.ratios;
            assert r.ratios[n - attempt] == rest.ratios[n - attempt - 1];
          }
        }
      }
    }
  }

  /** Every attempt of `try_instrument_class` keeps `total_classfiles` and the input on a
      retryable failure. */
  lemma TryAtKeeps(asm: Asm, rng: RandomSource, input: seq<JByte>, filename: string, o: Options, k: Counters)
    requires ReadOk(asm, input)
    ensures forall r: int, a: nat :: RetryKeeps(TryAt(asm, rng, input, filename, o), input, r, a, k)
  {
    forall r: int, a: nat
      ensures RetryKeeps(TryAt(asm, rng, input, filename, o), input, r, a, k)
    {
      TryRetry(asm, rng, input, filename, o.(ratio := r), a, k);
    }
  }

  /** Two attempt functions that agree give the same loop. */
  lemma {:induction false} RetrySame(a1: Attempt, a2: Attempt, ratio: int, attempt: nat, k: Counters)
    requires forall r: int, a: nat, c: Counters :: a1(r, a, c) == a2(r, a, c)
    decreases 100 - attempt
    ensures RetryLoop(a1, ratio, attempt, k) == RetryLoop(a2, ratio, attempt, k)
  {
    if attempt < 100 {
      var t := a1(ratio, attempt, k);
      if t.result.Retry? && ratio != 0 {
        RetrySame(a1, a2, NextRatio(ratio), attempt + 1, t.counters.(locations := k.locations));
      }
    }
  }

  /** Deterministic mode seeds every attempt from the input alone, so the outcome does not
      depend on the unseeded generators. */
  lemma RetryDeterministic(asm: Asm, rng1: RandomSource, rng2: RandomSource, input: seq<JByte>,
                           filename: string, o: Options, k: Counters)
    requires ReadOk(asm, input) && o.deterministic && rng1.seeded == rng2.seeded
    ensures RetrySpec(asm, rng1, input, filename, o, k) == RetrySpec(asm, rng2, input, filename, o, k)
  {
    var a1 := TryAt(asm, rng1, input, filename, o);
    var a2 := TryAt(asm, rng2, input, filename, o);
    forall r: int, a: nat, c: Counters
      ensures a1(r, a, c) == a2(r, a, c)
    {
      assert AttemptDraws(rng1, input, o.(ratio := r), a) == AttemptDraws(rng2, input, o.(ratio := r), a);
    }
    RetrySame(a1, a2, o.ratio, 0, k);
  }

  /** The library as `try_instrument_class` relies on it for a second pass: a written class
      can be read back, keeps its name, the reader lays out its item table as it does for
      any class, and its constant pool holds the marker string that was added to it. */
  ghost predicate WritesMarker(asm: Asm, input: seq<JByte>)
  {
    forall outs :: asm.read(input).Some? ==>
      var w := asm.write(input, outs);
      && asm.read(w).Some?
      && asm.read(w).value.name == asm.read(input).value.name
      && AsmLayout(asm.read(w).value.items)
      && HasMarkerItem(w, asm.read(w).value.items)
  }

  /** A class an attempt rewrote is recognised as instrumented by any later attempt, which
      hands it back unchanged, to the same directory, one class file fewer counted. */
  lemma MarkedOutput(asm: Asm, rng: RandomSource, input: seq<JByte>, filename: string, o: Options,
                     attempt: nat, k: Counters, rng2: RandomSource, o2: Options, attempt2: nat, k2: Counters)
    requires ReadOk(asm, input) && WritesMarker(asm, input)
    requires var t := TrySpec(asm, rng, input, filename, o, attempt, k);
      t.result.cls.data != input && ReadOk(asm, t.result.cls.data)
    ensures var t := TrySpec(asm, rng, input, filename, o, attempt, k);
      TrySpec(asm, rng2, t.result.cls.data, filename, o2, attempt2, k2) ==
        TryOutcome(Done(t.result.cls), k2.(classfiles := k2.classfiles - 1))
  {
    var t := TrySpec(asm, rng, input, filename, o, attempt, k);
    TryWritten(asm, rng, input, filename, o, attempt, k);
    var ms := asm.read(input).value.methods;
    var cs := Rewrite(o, AttemptDraws(rng, input, o, attempt), k.locations, ms);
    var w := t.result.cls.data;
    assert w == asm.write(input, cs.outs);
    var v := asm.read(w).value;
    assert |w| > 0 by {
      var i :| 0 <= i < |v.items| && MarkerAt(w, v.items[i]);
    }
    TryPassThrough(asm, rng2, w, filename, o2, attempt2, k2);
  }

  /** Running the rewriter over its own output changes nothing: a class whose bytes changed
      is recognised as instrumented on the next pass, written back unchanged to the same
      directory in a single attempt, and not counted again. */
  lemma SecondPass(asm: Asm, rng: RandomSource, input: seq<JByte>, filename: string, o: Options,
                   k: Counters, rng2: RandomSource, o2: Options, k2: Counters)
    requires ReadOk(asm, input) && WritesMarker(asm, input)
    requires var r := RetrySpec(asm, rng, input, filename, o, k);
      r.Finished? && r.cls.data != input && ReadOk(asm, r.cls.data)
    ensures var r := RetrySpec(asm, rng, input, filename, o, k);
      RetrySpec(asm, rng2, r.cls.data, filename, o2, k2) ==
        Finished(r.cls, k2.(classfiles := k2.classfiles - 1), [o2.ratio])
  {
    var r := RetrySpec(asm, rng, input, filename, o, k);
    var ratio, n := RetryResultIsAttempt(asm, rng, input, filename, o, k);
    var on := o.(ratio := ratio);
    MarkedOutput(asm, rng, input, filename, on, n, k, rng2, o2, 0, k2);
    var w := r.cls.data;
    var a2 := TryAt(asm, rng2, w, filename, o2);
    assert a2(o2.ratio, 0, k2) == TrySpec(asm, rng2, w, filename, o2, 0, k2) by {
      assert o2.(ratio := o2.ratio) == o2;
    }
    RetryFirstDone(a2, o2.ratio, k2);
  }

  /** A class `instrument_class` returns with changed bytes is what one of its attempts
      returned, from the counters at entry. */
  lemma RetryResultIsAttempt(asm: Asm, rng: RandomSource, input: seq<JByte>, filename: string, o: Options,
                             k: Counters) returns (ratio: int, n: nat)
    requires ReadOk(asm, input)
    requires var r := RetrySpec(asm, rng, input, filename, o, k);
      r.Finished? && r.cls.data != input
    ensures var r := RetrySpec(asm, rng, input, filename, o, k);
      r.cls == TrySpec(asm, rng, input, filename, o.(ratio := ratio), n, k).result.cls
  {
    var attempts := TryAt(asm, rng, input, filename, o);
    TryAtKeeps(asm, rng, input, filename, o, k);
    ratio, n := RetryLastAttempt(attempts, input, o.ratio, 0, k);
    assert attempts(ratio, n, k) == TrySpec(asm, rng, input, filename, o.(ratio := ratio), n, k);
  }

  /** A first attempt that returns ends the loop. */
  lemma RetryFirstDone(attempts: Attempt, ratio: int, k: Counters)
    requires attempts(ratio, 0, k).result.Done?
    ensures RetryLoop(attempts, ratio, 0, k) ==
      Finished(attempts(ratio, 0, k).result.cls, attempts(ratio, 0, k).counters, [ratio])
  {
  }

  /** The driver's state: the library, the generators and the shared counters. */
  class Instrumenter {
    const asm: Asm
    const rng: RandomSource
    const totals: Totals

    constructor (asm: Asm, rng: RandomSource, totals: Totals)
      ensures this.asm == asm && this.rng == rng && this.totals == totals
    {
      this.asm := asm;
      this.rng := rng;
      this.totals := totals;
    }

    ghost function Counts(): Counters
      reads totals
    {
      Counters(totals.locations, totals.classfiles)
    }

    /** `try_instrument_class`; `attempt` names the unseeded generator this attempt gets. */
    method TryInstrumentClass(input: seq<JByte>, filename: string, options: Options, attempt: nat)
      returns (r: TryResult)
      requires ReadOk(asm, input)
      modifies totals
      ensures var t := TrySpec(asm, rng, input, filename, options, attempt, old(Counts()));
        r == t.result && Counts() == t.counters
    {
      if !EndsWith(filename, ".class") {
        return Done(InstrumentedClass("", input));
      }
      if |input| == 0 {
        return Done(InstrumentedClass("", input));
      }
      var reader := asm.read(input);
      if reader.None? {
        return Done(InstrumentedClass("", input));
      }
      var view := reader.value;
      var directory := ParentDir(view.name);
      var marked := IsInstrumented(input, view.items);
      if marked {
        totals.classfiles := totals.classfiles - 1;
        return Done(InstrumentedClass(directory, input));
      }
      var random := new Random(if options.deterministic then rng.seeded(input) else rng.unseeded(attempt));
      var visitor := new InstrumentingClassVisitor(random, options, totals);
      var failure := asm.acceptFailsAfter(input);
      if failure.Some? {
        var _ := visitor.Accept(view.methods[..Min(failure.value, |view.methods|)]);
        return Done(InstrumentedClass(directory, input));
      }
      var outs := visitor.Accept(view.methods);
      if asm.tooLarge(input, outs) {
        return Retry(InstrumentedClass(directory, input));
      }
      return Done(InstrumentedClass(directory, asm.write(input, outs)));
    }

    /** `instrument_class`: up to 100 attempts, lowering the ratio after each retryable
        failure and putting the location counter back; `None` is the closing
        `AssertionError`. */
    method InstrumentClass(input: seq<JByte>, filename: string, options: Options)
      returns (r: Option<InstrumentedClass>)
      requires ReadOk(asm, input)
      modifies totals
      ensures var spec := RetrySpec(asm, rng, input, filename, options, old(Counts()));
        && (spec.Finished? ==> r == Some(spec.cls))
        && (spec.Exhausted? ==> r == None)
        && Counts() == spec.counters
    {
      ghost var k := Counts();
      ghost var attempts := TryAt(asm, rng, input, filename, options);
      ghost var tried: seq<int> := [];
      var oldLocations := totals.locations;
      var tryOptions := options;
      assert Prefixed([], RetrySpec(asm, rng, input, filename, options, k)) == RetrySpec(asm, rng, input, filename, options, k);
      for i := 0 to 100
        invariant Counts() == k && tryOptions == options.(ratio := tryOptions.ratio)
        invariant RetrySpec(asm, rng, input, filename, options, k) ==
                  Prefixed(tried, RetryLoop(attempts, tryOptions.ratio, i, k))
      {
        ghost var t := TrySpec(asm, rng, input, filename, tryOptions, i, k);
        assert attempts(tryOptions.ratio, i, k) == t;
        TryRetry(asm, rng, input, filename, tryOptions, i, k);
        RetryTurn(attempts, tried, tryOptions.ratio, i, k);
        var result := TryInstrumentClass(input, filename, tryOptions, i);
        if result.Done? {
          return Some(result.cls);
        }
        totals.locations := oldLocations;
        if tryOptions.ratio == 0 {
          return Some(result.cls);
        }
        var newRatio := LowerRatio(tryOptions.ratio);
        tried := tried + [tryOptions.ratio];
        tryOptions := tryOptions.(ratio := newRatio);
      }
      return None;
    }
  }
}
