// The `Machine` of the third interpreter generation: a stack of workers,
// one per running call, a stack of instruction streams and the stack of
// scopes. Each command updates the top worker in place and is proved
// against the transition that specifies it.

module KisaragiMachine {
  import opened Common
  import opened Objects
  import opened MetaDefs
  import opened KisaragiWorker
  import opened KisaragiCatch
  import opened KisaragiCalls

  /** The type id of the array `CommandReturn` builds; taken to be the one
    * of array objects. */
  const TypeIdArray: string := TypeIdArrayBase

  /** The header loop of `FinishFunctionCatching`; a `return` here is the
    * source's `break`. */
  method ParseHeaderLoop(fs: seq<string>) returns (h: Header)
    ensures h == ParseHeader(fs, 1, NoHeader)
  {
    h := NoHeader;
    var i := 1;
    while i < |fs|
      invariant 1 <= i
      invariant ParseHeader(fs, 1, NoHeader) == ParseHeader(fs, i, h)
      decreases |fs| - i
    {
      if fs[i] == StrOptional {
        h := h.(optional := true, counter := h.counter + 1);
        i := i + 1;
        continue;
      }
      if fs[i] == StrVariable {
        if h.counter == 1 {
          h := h.(error := Some(VariableTwice));
          return;
        }
        if i != |fs| - 2 {
          h := h.(error := Some(VariableNotLast));
          return;
        }
        h := h.(variable := true, counter := h.counter + 1);
        i := i + 1;
        continue;
      }
      if h.optional && fs[i - 1] != StrOptional {
        h := h.(error := Some(OptionalAfterNormal));
      }
      h := h.(params := h.params + [fs[i]]);
      i := i + 1;
    }
  }

  /** The guard loop of `CommandWhen`. */
  method ScanWhenLoop(args: seq<Object>, content: string) returns (r: WhenScan)
    ensures r == ScanWhen(args, content, 0)
  {
    var i := 0;
    while i < |args|
      invariant i <= |args| && ScanWhen(args, content, 0) == ScanWhen(args, content, i)
      decreases |args| - i
    {
      if !IsStringObject(args[i]) {
        return NonString;
      }
      if TextOf(args[i]) == content {
        return Match;
      }
      i := i + 1;
    }
    return NoMatch;
  }

  /** The scan loop of `Skipping`. */
  method SkipLoop(w0: Worker, ir: seq<Command>, rule: SkipRule) returns (w: Worker)
    requires |ir| < SizeMod
    ensures w == SkipFrom(w0, ir, rule, 0)
  {
    w := w0;
    var nest: nat := 0;
    var flag := false;
    while w.idx < |ir|
      invariant SkipFrom(w0, ir, rule, 0) == SkipFrom(w, ir, rule, nest)
      decreases |ir| - w.idx
    {
      if ir[w.idx].Segment? {
        var seg := ir[w.idx];
        w := SegmentInfo(w, seg.origin, seg.last);
        if seg.last in rule.nestFlags {
          nest := nest + 1;
          w := w.(idx := w.idx + 1);
          continue;
        }
        if rule.enable && seg.last in rule.terminators {
          if nest == 0 {
            flag := true;
            break;
          }
          w := w.(idx := w.idx + 1);
          continue;
        }
        if seg.last == IrEnd {
          if nest != 0 {
            nest := nest - 1;
            w := w.(idx := w.idx + 1);
            continue;
          }
          if w.skippingCount > 0 {
            w := w.(skippingCount := w.skippingCount - 1);
            w := w.(idx := w.idx + 1);
            continue;
          }
          flag := true;
          break;
        }
      }
      w := w.(idx := w.idx + 1);
    }
    if !flag {
      w := MakeError(w, ExpectEnd);
    }
  }

  /** The array `CommandReturn` returns for several values: a new vector
    * holding them in order. */
  method NewArray(items: seq<Object>) returns (o: Object)
    ensures o.typeId == TypeIdArray && o.payload.Elements?
    ensures fresh(o.payload.base) && o.payload.base[..] == items
  {
    var base := new Object[|items|];
    for i := 0 to |items|
      invariant base[..i] == items[..i]
    {
      base[i] := items[i];
    }
    o := Object(TypeIdArray, "", Elements(base), TNul, false);
  }

  class Machine {
    var workers: seq<Worker>
    var irStack: seq<seq<Command>>
    var scopes: seq<Scope>

    /** A machine over one instruction stream, before it runs. */
    constructor (ir: seq<Command>)
      ensures workers == [] && irStack == [ir] && scopes == []
    {
      workers, irStack, scopes := [], [ir], [];
    }

    /** What the control commands act on. */
    function Top(): Frame
      reads this
      requires workers != []
    {
      Frame(Last(workers), scopes)
    }

    /** Only the top worker and the scopes may have changed. */
    twostate predicate OnlyTop()
      reads this
    {
      |workers| == |old(workers)| && workers != [] && Pop(workers) == Pop(old(workers)) && irStack == old(irStack)
    }

    /** `SetSegmentInfo`, reached from `MachineCommands` for a segment. */
    method SetSegmentInfo(origin: SizeT, last: IrToken)
      requires workers != []
      modifies this
      ensures OnlyTop() && Top() == old(Top()).(worker := SegmentInfo(old(Last(workers)), origin, last))
    {
      var w := Last(workers);
      w := w.(originIdx := origin);
      w := w.(logicIdx := w.idx);
      w := w.(lastCommand := last);
      workers := SetLast(workers, w);
    }

    /** `CommandIfOrWhile` with its argument fetched. */
    method CommandIfOrWhile(token: IrToken, args: seq<Object>, classify: string -> TokenType)
      requires workers != []
      modifies this
      ensures OnlyTop() && Top() == IfOrWhile(old(Top()), token, args, classify)
    {
      var w := Last(workers);
      if |args| == 1 {
        var state := Truthy(args[0], classify);
        if token == IrIf {
          w := SwitchToMode(w, if state then Condition else NextCondition);
          w := w.(conditions := w.conditions + [state]);
        } else if token == IrWhile {
          w := WhileLine(w, state);
        } else if token == IrElif {
          if w.conditions != [] {
            if !Last(w.conditions) && w.mode == NextCondition {
              w := w.(mode := Condition);
              w := w.(conditions := SetLast(w.conditions, true));
            }
          } else {
            w := MakeError(w, UnexpectedElif);
          }
        }
      } else {
        w := MakeError(w, TooManyArguments);
      }
      workers := SetLast(workers, w);
    }

    /** The `while` branch of `CommandIfOrWhile` on the top worker `w`. */
    method WhileLine(w0: Worker, state: bool) returns (w: Worker)
      modifies this
      ensures Frame(w, scopes) == WhileHead(Frame(w0, old(scopes)), state)
      ensures workers == old(workers) && irStack == old(irStack)
    {
      w := w0;
      if w.loopHead == [] || Last(w.loopHead) != Dec(w.idx) {
        scopes := scopes + [map[]];
        w := w.(loopHead := w.loopHead + [Dec(w.logicIdx)]);
      }
      if state {
        w := SwitchToMode(w, Cycle);
      } else {
        w := SwitchToMode(w, CycleJump);
        if |w.loopHead| == |w.loopTail| && w.loopTail != [] {
          w := w.(idx := Dec(Last(w.loopTail)));
        }
      }
    }

    /** `CommandElse`. */
    method CommandElse()
      requires workers != []
      modifies this
      ensures OnlyTop() && Top() == Else(old(Top()))
    {
      var w := Last(workers);
      if w.conditions != [] {
        if Last(w.conditions) {
          if w.mode == Condition || w.mode == NextCondition {
            w := w.(mode := NextCondition);
          } else if w.mode == Case || w.mode == CaseJump {
            w := w.(mode := CaseJump);
          }
        } else {
          w := w.(conditions := SetLast(w.conditions, true));
          if w.mode == NextCondition {
            w := w.(mode := Condition);
          } else if w.mode == CaseJump {
            w := w.(mode := Case);
          }
        }
      } else {
        w := MakeError(w, UnexpectedElse);
      }
      workers := SetLast(workers, w);
    }

    /** `CommandCase` with its argument fetched and the sample it stores. */
    method CommandCase(args: seq<Object>, sample: Object)
      requires workers != []
      modifies this
      ensures OnlyTop() && Top() == OpenCase(old(Top()), args, sample)
    {
      var w := Last(workers);
      if args != [] {
        if !IsStringObject(args[0]) {
          w := MakeError(w, NonStringCase);
          workers := SetLast(workers, w);
          return;
        }
        scopes := scopes + [map[]];
        scopes := SetLast(scopes, Last(scopes)[StrCase := sample]);
        w := SwitchToMode(w, CaseJump);
        w := w.(conditions := w.conditions + [false]);
      } else {
        w := MakeError(w, EmptyCase);
      }
      workers := SetLast(workers, w);
    }

    /** `CommandWhen` with its guards fetched. */
    method CommandWhen(args: seq<Object>)
      requires workers != []
      modifies this
      ensures OnlyTop() && Top() == When(old(Top()), args)
    {
      var w := Last(workers);
      if w.conditions == [] || !(w.mode == Case || w.mode == CaseJump) {
        workers := SetLast(workers, MakeError(w, UnexpectedWhen));
        return;
      }
      if w.mode == Case {
        workers := SetLast(workers, w.(mode := CaseJump));
        return;
      }
      if Last(w.conditions) {
        workers := SetLast(workers, w);
        return;
      }
      w := WhenGuards(w, args);
      workers := SetLast(workers, w);
    }

    /** The guards of a `when` in a waiting `case` block with no branch
      * taken: compared with the case sample, string by string. */
    method WhenGuards(w0: Worker, args: seq<Object>) returns (w: Worker)
      requires w0.mode == CaseJump && w0.conditions != [] && !Last(w0.conditions)
      ensures Frame(w, scopes) == When(Frame(w0, scopes), args)
    {
      w := w0;
      if args != [] {
        var sample := FindObject(scopes, StrCase);
        if sample.None? {
          return MakeError(w, UnexpectedWhen);
        }
        if !IsStringObject(sample.value) {
          return MakeError(w, NonStringWhen);
        }
        var found := ScanWhenLoop(args, TextOf(sample.value));
        if found == NonString {
          return MakeError(w, NonStringWhen);
        }
        if found == Match {
          w := w.(mode := Case);
          w := w.(conditions := SetLast(w.conditions, true));
        }
      }
    }

    /** `CommandConditionEnd`; popping an empty stack is left undefined by
      * the source. */
    method CommandConditionEnd()
      requires workers != [] && Last(workers).conditions != [] && Last(workers).modeStack != [] && scopes != []
      modifies this
      ensures OnlyTop() && Some(Top()) == ConditionEnd(old(Top()))
    {
      var w := Last(workers);
      w := w.(conditions := Pop(w.conditions));
      w := w.(mode := Last(w.modeStack), modeStack := Pop(w.modeStack));
      scopes := Pop(scopes);
      workers := SetLast(workers, w);
    }

    /** `CommandLoopEnd`; a top or pop on an empty stack is left undefined
      * by the source. */
    method CommandLoopEnd()
      requires workers != [] && LoopEnd(Frame(Last(workers), scopes)).Some?
      modifies this
      ensures OnlyTop() && Some(Top()) == LoopEnd(old(Top()))
    {
      var w := Last(workers);
      if w.mode == Cycle {
        if w.loopTail == [] || Last(w.loopTail) != Dec(w.idx) {
          w := w.(loopTail := w.loopTail + [Dec(w.logicIdx)]);
        }
        w := w.(idx := Dec(Last(w.loopHead)));
        scopes := SetLast(scopes, map[]);
      } else if w.mode == CycleJump {
        if w.activatedContinue {
          if w.loopTail == [] || Last(w.loopTail) != Dec(w.idx) {
            w := w.(loopTail := w.loopTail + [Dec(w.logicIdx)]);
          }
          w := w.(idx := Dec(Last(w.loopHead)));
          w := w.(mode := Cycle);
          w := w.(activatedContinue := false);
          scopes := SetLast(scopes, map[]);
        } else {
          if w.activatedBreak {
            w := w.(activatedBreak := false);
          }
          w := w.(mode := Last(w.modeStack), modeStack := Pop(w.modeStack));
          if |w.loopHead| == |w.loopTail| {
            w := w.(loopHead := Pop(w.loopHead));
            w := w.(loopTail := Pop(w.loopTail));
          } else {
            w := w.(loopHead := Pop(w.loopHead));
          }
          scopes := Pop(scopes);
        }
      }
      workers := SetLast(workers, w);
    }

    /** `CommandReturn` with its arguments fetched. With a caller below, the
      * callee's worker, instructions and scope are dropped and one value is
      * pushed on the caller's return stack: the empty object, the single
      * argument, or a new array of the arguments in order. Without a
      * caller the return is only reported. */
    method CommandReturn(args: seq<Object>) returns (reported: bool, value: Object)
      requires workers != []
      requires |workers| > 1 ==> irStack != [] && scopes != []
      modifies this
      ensures reported <==> |old(workers)| <= 1
      ensures reported ==> workers == old(workers) && irStack == old(irStack) && scopes == old(scopes)
      ensures !reported ==>
                && irStack == Pop(old(irStack)) && scopes == Pop(old(scopes))
                && workers == SetLast(Pop(old(workers)), Last(Pop(old(workers))).(returnStack := Last(Pop(old(workers))).returnStack + [value]))
                && (|args| == 0 ==> value == EmptyObject())
                && (|args| == 1 ==> value == args[0])
                && (|args| > 1 ==> value.typeId == TypeIdArray && value.payload.Elements?
                                   && fresh(value.payload.base) && value.payload.base[..] == args)
    {
      value := EmptyObject();
      if |workers| <= 1 {
        return true, value;
      }
      if |args| == 1 {
        value := args[0];
      } else if |args| > 1 {
        value := NewArray(args);
      }
      workers := Pop(workers);
      irStack := Pop(irStack);
      scopes := Pop(scopes);
      var caller := Last(workers);
      caller := caller.(returnStack := caller.returnStack + [value]);
      workers := SetLast(workers, caller);
      return false, value;
    }

    /** `InitFunctionCatching` with the header strings of its arguments. */
    method InitFunctionCatching(args: seq<string>)
      requires workers != []
      modifies this
      ensures OnlyTop() && Top() == old(Top()).(worker := InitCatching(old(Last(workers)), args))
    {
      var w := Last(workers);
      if args != [] {
        for i := 0 to |args|
          invariant w == Last(workers).(fnStrings := Last(workers).fnStrings + args[..i])
        {
          w := w.(fnStrings := w.fnStrings + [args[i]]);
        }
        assert args[..|args|] == args;
      } else {
        w := MakeError(w, EmptyArgs);
      }
      w := w.(fnIdx := w.idx);
      workers := SetLast(workers, w);
    }

    /** `FinishFunctionCatching` without closure capture. An index past the
      * instructions, an empty header and an empty scope stack are left
      * undefined by the source. */
    method FinishFunctionCatching()
      requires workers != [] && irStack != []
      requires Inc(Last(workers).fnIdx) < Last(workers).idx ==> Last(workers).idx <= |Last(irStack)|
      requires var h := ParseHeader(Last(workers).fnStrings, 1, NoHeader);
               !(h.optional && h.variable) ==> Last(workers).fnStrings != [] && scopes != []
      modifies this
      ensures OnlyTop() && Some(Top()) == FinishCatching(old(Top()), Last(irStack))
    {
      var w := Last(workers);
      var ir := Last(irStack);
      var body := CopyBody(ir, Inc(w.fnIdx), w.idx);
      var h := ParseHeaderLoop(w.fnStrings);
      if h.error.Some? {
        w := w.(error := h.error);
      }
      if h.optional && h.variable {
        w := MakeError(w, OptionalAndVariable);
        workers := SetLast(workers, w);
        return;
      }
      var mode := NormalParm;
      if h.optional {
        mode := AutoFill;
      }
      if h.variable {
        mode := AutoSize;
      }
      var min: Option<SizeT> := None;
      if h.optional {
        min := Some((|h.params| - h.counter) % SizeMod);
      }
      var name := w.fnStrings[0];
      var fn := Object(TypeIdFunction, "", Function(name, h.params, mode, min, body), TNul, false);
      scopes := SetLast(scopes, Last(scopes)[name := fn]);
      workers := SetLast(workers, w);
    }

    /** The copying loop of `FinishFunctionCatching`: the instructions from
      * `lo` up to `hi`, none when `lo` is not before `hi`. */
    static method CopyBody(ir: seq<Command>, lo: SizeT, hi: SizeT) returns (body: seq<Command>)
      requires lo < hi ==> hi <= |ir|
      ensures body == Body(ir, lo, hi)
    {
      body := [];
      var i := lo;
      while i < hi
        invariant lo <= i <= hi || (i == lo && i >= hi)
        invariant lo < hi ==> body == ir[lo..i]
        invariant lo >= hi ==> body == []
        decreases hi - i
      {
        body := body + [ir[i]];
        i := i + 1;
      }
    }

    /** `Skipping` over the current instruction stream. */
    method Skipping(rule: SkipRule)
      requires workers != [] && irStack != [] && |Last(irStack)| < SizeMod
      modifies this
      ensures OnlyTop() && Top() == old(Top()).(worker := SkipFrom(old(Last(workers)), Last(irStack), rule, 0))
    {
      var w := SkipLoop(Last(workers), Last(irStack), rule);
      workers := SetLast(workers, w);
    }

    /** `GenerateArgs`: binds a call's fetched arguments by the callee's
      * argument mode and records a refused call as the top worker's error. */
    method GenerateArgs(fn: Payload, args: seq<Object>, objMap: map<string, Object>) returns (r: map<string, Object>)
      requires fn.Function? && workers != []
      modifies this
      ensures var g := CallBind(fn, args, objMap);
              && OnlyTop() && scopes == old(scopes)
              && (g.Bound? ==> r == g.objects && workers == old(workers))
              && (g.ArgError? ==> r == objMap && Last(workers) == MakeError(old(Last(workers)), g.e))
    {
      var g: Gen;
      match fn.mode {
        case NormalParm =>
          g := GenerateNormal(fn.params, args, objMap);
        case AutoFill =>
          g := GenerateAutoFill(fn.params, args, if fn.minArgs.Some? then fn.minArgs.value else 0, objMap);
        case AutoSize =>
          g := if |args| < |fn.params| then ArgError(TooFewArguments) else Bound(objMap);
      }
      if g.ArgError? {
        workers := SetLast(workers, MakeError(Last(workers), g.e));
        r := objMap;
      } else {
        workers := SetLast(workers, Last(workers));
        r := g.objects;
      }
    }

    /** The block-removal pass of `Preprocessor`: the instructions of each
      * caught function block, from its header to its `end`, are dropped
      * from the current stream (the blocks are the `(header, end)` index
      * pairs inserted into a map in the order they were caught). */
    method RemoveCaughtBlocks(blocks: seq<(nat, nat)>)
      requires Forward(blocks)
      modifies this
      ensures workers == old(workers) && scopes == old(scopes)
      ensures irStack == if old(irStack) == [] then old(irStack)
                         else SetLast(old(irStack), Kept(Last(old(irStack)), RangeMap(blocks), 0))
    {
      if irStack == [] {
        return;
      }
      var kept := RemoveRanges(Last(irStack), RangeMap(blocks));
      irStack := SetLast(irStack, kept);
    }
  }
}
