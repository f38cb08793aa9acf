// Function definitions and skipping in the third interpreter generation:
// catching the header of an `fn` block, building the function object from
// the header and the instructions up to its `end`, and the nesting-aware
// forward scan that skips the instructions of a branch not taken.

module KisaragiCatch {
  import opened Common
  import opened Objects
  import opened KisaragiWorker

  // ---------------------------------------------------------------------
  // Function headers

  /** `InitFunctionCatching`: the header strings are appended to the ones
    * caught so far (an empty header is an error) and the header's index is
    * remembered. */
  function InitCatching(w: Worker, args: seq<string>): Worker
  {
    (if args != [] then w.(fnStrings := w.fnStrings + args) else MakeError(w, EmptyArgs)).(fnIdx := w.idx)
  }

  /** The locals of the header loop of `FinishFunctionCatching`. */
  datatype Header = Header(params: seq<string>, optional: bool, variable: bool, counter: nat, error: Option<KError>)

  const NoHeader := Header([], false, false, 0, None)

  predicate IsMarker(s: string) { s == StrOptional || s == StrVariable }

  /** The header loop from entry `i` on: a marker sets its flag and is
    * counted; a second or misplaced variadic marker stops the loop with an
    * error; a parameter after an optional one without its own marker is an
    * error that does not stop the loop. */
  function ParseHeader(fs: seq<string>, i: nat, h: Header): Header
    requires 1 <= i
    decreases |fs| - i
  {
    if i >= |fs| then h
    else if fs[i] == StrOptional then ParseHeader(fs, i + 1, h.(optional := true, counter := h.counter + 1))
    else if fs[i] == StrVariable then
      if h.counter == 1 then h.(error := Some(VariableTwice))
      else if i != |fs| - 2 then h.(error := Some(VariableNotLast))
      else ParseHeader(fs, i + 1, h.(variable := true, counter := h.counter + 1))
    else
      var h1 := if h.optional && fs[i - 1] != StrOptional then h.(error := Some(OptionalAfterNormal)) else h;
      ParseHeader(fs, i + 1, h1.(params := h1.params + [fs[i]]))
  }

  /** The entries that are not markers, in order. */
  function NonMarkers(s: seq<string>): seq<string>
  {
    if s == [] then [] else (if IsMarker(s[0]) then [] else [s[0]]) + NonMarkers(s[1..])
  }

  function MarkerCount(s: seq<string>): nat
  {
    if s == [] then 0 else (if IsMarker(s[0]) then 1 else 0) + MarkerCount(s[1..])
  }

  /** The variadic markers from entry `i` on do not stop the loop: each is
    * the second-to-last entry and is not met with exactly one marker
    * counted before it. */
  predicate VariadicPlaced(fs: seq<string>, i: nat, counter: nat)
    requires i <= |fs|
  {
    forall j :: i <= j < |fs| && fs[j] == StrVariable ==> j == |fs| - 2 && counter + MarkerCount(fs[i..j]) != 1
  }

  lemma MarkerCountStep(fs: seq<string>, i: nat, j: nat)
    requires i < j <= |fs|
    ensures MarkerCount(fs[i..j]) == (if IsMarker(fs[i]) then 1 else 0) + MarkerCount(fs[i + 1..j])
  {
    assert fs[i..j][1..] == fs[i + 1..j];
  }

  /** Checking the variadic markers from `i` on is checking entry `i` and
    * then the rest with entry `i` counted. */
  lemma PlacedStep(fs: seq<string>, i: nat, counter: nat)
    requires i < |fs|
    ensures VariadicPlaced(fs, i, counter) <==>
              && (fs[i] == StrVariable ==> i == |fs| - 2 && counter != 1)
              && VariadicPlaced(fs, i + 1, counter + if IsMarker(fs[i]) then 1 else 0)
  {
    var c := counter + if IsMarker(fs[i]) then 1 else 0;
    assert MarkerCount(fs[i..i]) == 0;
    forall j | i < j < |fs|
      ensures counter + MarkerCount(fs[i..j]) == c + MarkerCount(fs[i + 1..j])
    {
      MarkerCountStep(fs, i, j);
    }
  }

  /** `VariadicPlaced` entry by entry, as the loop checks it. */
  predicate PlacedFrom(fs: seq<string>, i: nat, counter: nat)
    requires i <= |fs|
    decreases |fs| - i
  {
    i == |fs|
    || (&& (fs[i] == StrVariable ==> i == |fs| - 2 && counter != 1)
        && PlacedFrom(fs, i + 1, counter + if IsMarker(fs[i]) then 1 else 0))
  }

  lemma {:induction false} PlacedFromIff(fs: seq<string>, i: nat, counter: nat)
    requires i <= |fs|
    ensures PlacedFrom(fs, i, counter) <==> VariadicPlaced(fs, i, counter)
    decreases |fs| - i
  {
    if i < |fs| {
      PlacedStep(fs, i, counter);
      PlacedFromIff(fs, i + 1, counter + if IsMarker(fs[i]) then 1 else 0);
    }
  }

  /** When no variadic marker stops the loop, the parameters are the
    * entries that are not markers and the counter is the number of
    * markers; otherwise the loop stops with one of the two variadic
    * errors. */
  lemma HeaderParams(fs: seq<string>, i: nat, h: Header)
    requires 1 <= i <= |fs|
    ensures VariadicPlaced(fs, i, h.counter) ==>
              && ParseHeader(fs, i, h).params == h.params + NonMarkers(fs[i..])
              && ParseHeader(fs, i, h).counter == h.counter + MarkerCount(fs[i..])
    ensures !VariadicPlaced(fs, i, h.counter) ==>
              ParseHeader(fs, i, h).error in {Some(VariableTwice), Some(VariableNotLast)}
  {
    PlacedFromIff(fs, i, h.counter);
    HeaderAccepted(fs, i, h);
    HeaderRefused(fs, i, h);
  }

  lemma MarkersStep(fs: seq<string>, i: nat)
    requires i < |fs|
    ensures NonMarkers(fs[i..]) == (if IsMarker(fs[i]) then [] else [fs[i]]) + NonMarkers(fs[i + 1..])
    ensures MarkerCount(fs[i..]) == (if IsMarker(fs[i]) then 1 else 0) + MarkerCount(fs[i + 1..])
  {
    assert fs[i..][1..] == fs[i + 1..];
  }

  lemma {:induction false} HeaderAccepted(fs: seq<string>, i: nat, h: Header)
    requires 1 <= i <= |fs|
    ensures PlacedFrom(fs, i, h.counter) ==>
              && ParseHeader(fs, i, h).params == h.params + NonMarkers(fs[i..])
              && ParseHeader(fs, i, h).counter == h.counter + MarkerCount(fs[i..])
    decreases |fs| - i
  {
    if i < |fs| && PlacedFrom(fs, i, h.counter) {
      MarkersStep(fs, i);
      if fs[i] == StrOptional {
        HeaderAccepted(fs, i + 1, h.(optional := true, counter := h.counter + 1));
      } else if fs[i] == StrVariable {
        HeaderAccepted(fs, i + 1, h.(variable := true, counter := h.counter + 1));
      } else {
        var h1 := if h.optional && fs[i - 1] != StrOptional then h.(error := Some(OptionalAfterNormal)) else h;
        HeaderAccepted(fs, i + 1, h1.(params := h1.params + [fs[i]]));
        assert h.params + NonMarkers(fs[i..]) == (h.params + [fs[i]]) + NonMarkers(fs[i + 1..]);
      }
    }
  }

  lemma {:induction false} HeaderRefused(fs: seq<string>, i: nat, h: Header)
    requires 1 <= i <= |fs|
    ensures !PlacedFrom(fs, i, h.counter) ==>
              ParseHeader(fs, i, h).error in {Some(VariableTwice), Some(VariableNotLast)}
    decreases |fs| - i
  {
    if i < |fs| {
      if fs[i] == StrOptional {
        HeaderRefused(fs, i + 1, h.(optional := true, counter := h.counter + 1));
      } else if fs[i] == StrVariable {
        if h.counter != 1 && i == |fs| - 2 {
          HeaderRefused(fs, i + 1, h.(variable := true, counter := h.counter + 1));
        }
      } else {
        var h1 := if h.optional && fs[i - 1] != StrOptional then h.(error := Some(OptionalAfterNormal)) else h;
        HeaderRefused(fs, i + 1, h1.(params := h1.params + [fs[i]]));
      }
    }
  }

  /** A header that is accepted as variadic has its variadic marker as the
    * second-to-last entry, so exactly one parameter follows it. */
  lemma {:induction false} VariadicSecondToLast(fs: seq<string>, i: nat, h: Header)
    requires 1 <= i
    requires ParseHeader(fs, i, h).variable && !h.variable
    ensures |fs| >= 3 && fs[|fs| - 2] == StrVariable
    decreases |fs| - i
  {
    if i < |fs| {
      if fs[i] == StrOptional {
        VariadicSecondToLast(fs, i + 1, h.(optional := true, counter := h.counter + 1));
      } else if fs[i] == StrVariable {
      } else {
        var h1 := if h.optional && fs[i - 1] != StrOptional then h.(error := Some(OptionalAfterNormal)) else h;
        VariadicSecondToLast(fs, i + 1, h1.(params := h1.params + [fs[i]]));
      }
    }
  }

  /** The body of a function: the instructions strictly between its header
    * at `from - 1` and its `end` at `to`. */
  function Body(ir: seq<Command>, from: SizeT, to: SizeT): seq<Command>
    requires from < to ==> to <= |ir|
  {
    if from < to then ir[from..to] else []
  }

  /** `FinishFunctionCatching` without closure capture: the body runs from
    * the line after the header to the worker's index; the header gives the
    * name, the parameters, the argument mode and, with optional parameters,
    * the least argument count (a `size_t` difference, so it wraps). The
    * function object is created in the current scope. `None` is an index
    * past the instructions, an empty header or an empty scope stack, which
    * the source leaves undefined. */
  function FinishCatching(f: Frame, ir: seq<Command>): Option<Frame>
  {
    var w := f.worker;
    var from := Inc(w.fnIdx);
    if from < w.idx && w.idx > |ir| then None
    else
      var body := Body(ir, from, w.idx);
      var h := ParseHeader(w.fnStrings, 1, NoHeader);
      var w1 := if h.error.Some? then w.(error := h.error) else w;
      if h.optional && h.variable then Some(f.(worker := MakeError(w1, OptionalAndVariable)))
      else if w.fnStrings == [] || f.scopes == [] then None
      else
        var name := w.fnStrings[0];
        var mode := if h.variable then AutoSize else if h.optional then AutoFill else NormalParm;
        var min := if h.optional then Some((|h.params| - h.counter) % SizeMod) else None;
        var fn := Object(TypeIdFunction, "", Function(name, h.params, mode, min, body), TNul, false);
        Some(Frame(w1, SetLast(f.scopes, Last(f.scopes)[name := fn])))
  }

  /** A header without misplaced variadic markers, not both optional and
    * variadic, makes a function named by its first entry whose parameters
    * are its other entries that are not markers, whose body is the lines
    * after the header up to the `end`, and whose mode and least count
    * follow the markers. */
  lemma CaughtFunction(f: Frame, ir: seq<Command>)
    requires f.worker.fnStrings != [] && f.scopes != []
    requires Inc(f.worker.fnIdx) < f.worker.idx ==> f.worker.idx <= |ir|
    requires VariadicPlaced(f.worker.fnStrings, 1, 0)
    requires !(StrOptional in f.worker.fnStrings[1..] && StrVariable in f.worker.fnStrings[1..])
    ensures var fs := f.worker.fnStrings;
            var r := FinishCatching(f, ir);
            && r.Some? && Pop(r.value.scopes) == Pop(f.scopes)
            && fs[0] in Last(r.value.scopes)
            && var fn := Last(r.value.scopes)[fs[0]].payload;
               && fn.Function? && fn.id == fs[0] && fn.params == NonMarkers(fs[1..])
               && fn.body == Body(ir, Inc(f.worker.fnIdx), f.worker.idx)
               && (fn.mode == AutoSize <==> StrVariable in fs[1..])
               && (fn.mode == AutoFill <==> StrOptional in fs[1..])
               && (fn.minArgs.Some? <==> StrOptional in fs[1..])
               && (fn.minArgs.Some? ==> fn.minArgs.value == (|NonMarkers(fs[1..])| - MarkerCount(fs[1..])) % SizeMod)
  {
    var fs := f.worker.fnStrings;
    HeaderParams(fs, 1, NoHeader);
    HeaderFlags(fs, 1, NoHeader);
  }

  /** The optional flag is set exactly when an optional marker is met; the
    * variadic flag only when a variadic marker is met. */
  lemma {:induction false} HeaderFlags(fs: seq<string>, i: nat, h: Header)
    requires 1 <= i <= |fs|
    requires VariadicPlaced(fs, i, h.counter)
    ensures ParseHeader(fs, i, h).optional <==> h.optional || StrOptional in fs[i..]
    ensures ParseHeader(fs, i, h).variable <==> h.variable || StrVariable in fs[i..]
    decreases |fs| - i
  {
    if i < |fs| {
      assert fs[i..] == [fs[i]] + fs[i + 1..];
      PlacedStep(fs, i, h.counter);
      if fs[i] == StrOptional {
        HeaderFlags(fs, i + 1, h.(optional := true, counter := h.counter + 1));
      } else if fs[i] == StrVariable {
        HeaderFlags(fs, i + 1, h.(variable := true, counter := h.counter + 1));
      } else {
        var h1 := if h.optional && fs[i - 1] != StrOptional then h.(error := Some(OptionalAfterNormal)) else h;
        HeaderFlags(fs, i + 1, h1.(params := h1.params + [fs[i]]));
      }
    }
  }

  // ---------------------------------------------------------------------
  // Skipping

  /** What a skip looks for: whether terminators stop it, which statement
    * tokens stop it, and which open a nested block. */
  datatype SkipRule = SkipRule(enable: bool, terminators: set<IrToken>, nestFlags: set<IrToken>)

  /** `SetSegmentInfo`: a segment gives the worker its source line, its
    * logical index and the token of the statement it opens. */
  function SegmentInfo(w: Worker, origin: SizeT, last: IrToken): Worker
  {
    w.(originIdx := origin, logicIdx := w.idx, lastCommand := last)
  }

  /** `Skipping` from the worker's index with `nest` blocks open. Only
    * segments are looked at: a block opener is counted, an enabled
    * terminator stops the scan at depth 0, an `end` closes a counted block,
    * else uses up one pending skip, else stops the scan. Running off the
    * instructions records "Expect 'end'". */
  function SkipFrom(w: Worker, ir: seq<Command>, rule: SkipRule, nest: nat): Worker
    requires |ir| < SizeMod
    decreases |ir| - w.idx
  {
    if w.idx >= |ir| then MakeError(w, ExpectEnd)
    else match ir[w.idx]
      case Request(_) => SkipFrom(w.(idx := w.idx + 1), ir, rule, nest)
      case Segment(origin, last) =>
        var v := SegmentInfo(w, origin, last);
        var next := v.(idx := w.idx + 1);
        if last in rule.nestFlags then SkipFrom(next, ir, rule, nest + 1)
        else if rule.enable && last in rule.terminators then
          if nest == 0 then v else SkipFrom(next, ir, rule, nest)
        else if last == IrEnd then
          if nest != 0 then SkipFrom(next, ir, rule, nest - 1)
          else if v.skippingCount > 0 then SkipFrom(next.(skippingCount := v.skippingCount - 1), ir, rule, nest)
          else v
        else SkipFrom(next, ir, rule, nest)
  }

  /** A segment at which a skip with no block open stops. */
  predicate StopsAt(ir: seq<Command>, rule: SkipRule, i: nat)
    requires i < |ir|
  {
    && ir[i].Segment? && ir[i].last !in rule.nestFlags
    && ((rule.enable && ir[i].last in rule.terminators) || ir[i].last == IrEnd)
  }

  /** The outcome of a skip from `w`: see `SkipEnds`. */
  predicate SkipResult(w: Worker, ir: seq<Command>, rule: SkipRule, r: Worker)
  {
    || (r.idx == |ir| && r.error == Some(ExpectEnd)) || (w.idx > |ir| && r == MakeError(w, ExpectEnd))
    || (&& w.idx <= r.idx < |ir| && StopsAt(ir, rule, r.idx) && r.error == w.error
        && r.lastCommand == ir[r.idx].last && r.logicIdx == r.idx && r.originIdx == ir[r.idx].origin
        && (ir[r.idx].last == IrEnd && !(rule.enable && IrEnd in rule.terminators) ==> r.skippingCount == 0))
  }

  /** A skip either runs off the instructions, recording the error, or stops
    * at a segment that stops it, with that segment's information loaded; a
    * stop at an `end` has used up every pending skip. */
  lemma {:induction false} SkipEnds(w: Worker, ir: seq<Command>, rule: SkipRule, nest: nat)
    requires |ir| < SizeMod
    ensures SkipResult(w, ir, rule, SkipFrom(w, ir, rule, nest))
    decreases |ir| - w.idx
  {
    if w.idx < |ir| {
      match ir[w.idx]
      case Request(_) =>
        var next := w.(idx := w.idx + 1);
        SkipEnds(next, ir, rule, nest);
        SkipLater(w, next, ir, rule, SkipFrom(next, ir, rule, nest));
      case Segment(origin, last) =>
        var next := SegmentInfo(w, origin, last).(idx := w.idx + 1);
        var n1: nat := if last in rule.nestFlags then nest + 1
                       else if last == IrEnd && nest != 0 && !(rule.enable && last in rule.terminators) then nest - 1
                       else nest;
        var next1 := if last !in rule.nestFlags && !(rule.enable && last in rule.terminators)
                        && last == IrEnd && nest == 0 && w.skippingCount > 0
                     then next.(skippingCount := w.skippingCount - 1) else next;
        // `next1` and `n1` are where the scan goes on when it does not stop here
        if SkipFrom(w, ir, rule, nest) == SkipFrom(next1, ir, rule, n1) {
          SkipEnds(next1, ir, rule, n1);
          SkipLater(w, next1, ir, rule, SkipFrom(next1, ir, rule, n1));
        }
    }
  }

  /** What a skip from a later index with the same error reports holds of a
    * skip from the earlier one. */
  lemma SkipLater(w: Worker, next: Worker, ir: seq<Command>, rule: SkipRule, r: Worker)
    requires w.idx < next.idx <= |ir| && next.error == w.error
    requires SkipResult(next, ir, rule, r)
    ensures SkipResult(w, ir, rule, r)
  {
  }

  /** A skip looks only at segments: instruction streams with the same
    * segments at the same places are skipped alike, whatever requests lie
    * between them. */
  lemma {:induction false} SkipSegmentsOnly(w: Worker, ir: seq<Command>, ir2: seq<Command>, rule: SkipRule, nest: nat)
    requires |ir| < SizeMod && |ir2| == |ir|
    requires forall i :: 0 <= i < |ir| ==> (ir[i].Segment? || ir2[i].Segment? ==> ir[i] == ir2[i])
    ensures SkipFrom(w, ir, rule, nest) == SkipFrom(w, ir2, rule, nest)
    decreases |ir| - w.idx
  {
    if w.idx < |ir| {
      match ir[w.idx]
      case Request(_) =>
        assert ir2[w.idx].Request?;
        SkipSegmentsOnly(w.(idx := w.idx + 1), ir, ir2, rule, nest);
      case Segment(origin, last) =>
        var next := SegmentInfo(w, origin, last).(idx := w.idx + 1);
        SkipSegmentsOnly(next, ir, ir2, rule, nest + 1);
        SkipSegmentsOnly(next, ir, ir2, rule, nest);
        if nest > 0 { SkipSegmentsOnly(next, ir, ir2, rule, nest - 1); }
        if w.skippingCount > 0 {
          SkipSegmentsOnly(next.(skippingCount := w.skippingCount - 1), ir, ir2, rule, nest);
        }
    }
  }

  /** A segment that neither opens nor closes a block nor terminates. */
  predicate Plain(ir: seq<Command>, rule: SkipRule, i: nat)
    requires i < |ir|
  {
    ir[i].Segment? ==> ir[i].last !in rule.nestFlags && !(rule.enable && ir[i].last in rule.terminators) && ir[i].last != IrEnd
  }

  /** With no block open and no pending skip, a skip stops at the first
    * stopping segment when only plain instructions come before it. */
  lemma {:induction false} SkipFirstStop(w: Worker, ir: seq<Command>, rule: SkipRule, j: nat)
    requires |ir| < SizeMod && w.idx <= j < |ir| && w.skippingCount == 0
    requires forall i :: w.idx <= i < j ==> Plain(ir, rule, i)
    requires StopsAt(ir, rule, j)
    ensures SkipFrom(w, ir, rule, 0).idx == j
    decreases j - w.idx
  {
    if w.idx < j {
      assert Plain(ir, rule, w.idx);
      match ir[w.idx]
      case Request(_) => SkipFirstStop(w.(idx := w.idx + 1), ir, rule, j);
      case Segment(origin, last) => SkipFirstStop(SegmentInfo(w, origin, last).(idx := w.idx + 1), ir, rule, j);
    }
  }
}
