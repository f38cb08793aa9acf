// The control-flow machine of the first interpreter generation: the
// `ScriptMachine` that runs compiled lines one after another and keeps the
// if/elif/else and while blocks in a mode stack, a condition stack and the
// loop head and tail stacks.

module ParserMachine {
  import opened Common
  import opened Objects
  import opened Parser

  /** The control state of a `ScriptMachine`: the current mode, the saved
    * modes, one flag per open if-block telling whether a branch was taken,
    * the line indices of the open loop heads and tails, the line being run,
    * the count of heads opened inside skipped code, the health flag and the
    * stack of scopes. */
  datatype Ctl = Ctl(
    mode: Mode,
    modeStack: seq<Mode>,
    conditions: seq<bool>,
    cycleNest: seq<SizeT>,
    cycleTail: seq<SizeT>,
    current: SizeT,
    nestHeadCount: nat,
    health: bool,
    scopes: seq<Scope>)

  /** `ConditionRoot`: an `if` saves the mode and pushes its value; a true
    * value opens a scope and enters the branch. */
  function Root(s: Ctl, value: bool): Ctl
  {
    s.(modeStack := s.modeStack + [s.mode],
       mode := if value then Condition else NextCondition,
       conditions := s.conditions + [value],
       scopes := if value then s.scopes + [map[]] else s.scopes)
  }

  /** `ConditionBranch`: an `elif` enters its branch only when no branch of
    * the block was taken yet and its value is true; without an open block
    * the machine turns unhealthy. */
  function Branch(s: Ctl, value: bool): Ctl
  {
    if s.conditions == [] then s.(health := false)
    else if !Last(s.conditions) && s.mode == NextCondition && value then
      s.(scopes := s.scopes + [map[]], mode := Condition, conditions := SetLast(s.conditions, true))
    else s
  }

  /** `ConditionLeaf`: an `else` skips when a branch was taken and is taken
    * otherwise. */
  function Leaf(s: Ctl): Ctl
  {
    if s.conditions == [] then s.(health := false)
    else if Last(s.conditions) then s.(mode := NextCondition)
    else s.(scopes := s.scopes + [map[]], conditions := SetLast(s.conditions, true), mode := Condition)
  }

  /** `HeadSign`: a `while` line. On first entry (the innermost loop head is
    * not this line) it saves the mode and, unless the line manages its own
    * objects, opens a scope. A true value enters the loop and records the
    * head as `current - 1`; a false value skips the body, jumping to the
    * recorded tail when there is one. */
  function Head(s: Ctl, value: bool, selfManaged: bool): Ctl
  {
    var entering := s.cycleNest == [] || Last(s.cycleNest) != Dec(s.current);
    var t := if entering then s.(modeStack := s.modeStack + [s.mode],
                                 scopes := if selfManaged then s.scopes else s.scopes + [map[]])
             else s;
    if value then
      t.(mode := Cycle, cycleNest := if entering then t.cycleNest + [Dec(s.current)] else t.cycleNest)
    else
      t.(mode := CycleJump, current := if t.cycleTail != [] then Last(t.cycleTail) else t.current)
  }

  /** Empties the innermost scope and keeps it. */
  function ClearTop(scopes: seq<Scope>): seq<Scope>
    requires scopes != []
  {
    SetLast(scopes, map[])
  }

  /** The loop half of `TailSign`. In Cycle the `end` records its own line
    * as the loop tail (once) and rewinds to the loop head, emptying the
    * loop's scope; in CycleJump it leaves the loop, popping the saved mode,
    * both loop stacks and the loop's scope. `None` is a pop or top on an
    * empty stack, which the source leaves undefined. */
  function LoopTail(s: Ctl): Option<Ctl>
  {
    if s.mode == Cycle then
      if s.cycleNest == [] || s.scopes == [] then None
      else Some(s.(cycleTail := if s.cycleTail == [] || Last(s.cycleTail) != Dec(s.current)
                                then s.cycleTail + [Dec(s.current)] else s.cycleTail,
                   current := Last(s.cycleNest),
                   scopes := ClearTop(s.scopes)))
    else if s.mode == CycleJump then
      if s.modeStack == [] || s.cycleNest == [] || s.cycleTail == [] || s.scopes == [] then None
      else Some(s.(mode := Last(s.modeStack), modeStack := Pop(s.modeStack),
                   cycleNest := Pop(s.cycleNest), cycleTail := Pop(s.cycleTail),
                   scopes := Pop(s.scopes)))
    else Some(s)
  }

  predicate InCondition(s: Ctl) { s.mode == Condition || s.mode == NextCondition }

  /** `TailSign` as the source writes it: the condition half disposes a
    * scope whether or not a branch opened one, and, being a separate `if`,
    * is followed by the loop half on the mode it has just restored. */
  function TailAsWritten(s: Ctl): Option<Ctl>
  {
    if InCondition(s) then
      if s.conditions == [] || s.modeStack == [] || s.scopes == [] then None
      else LoopTail(s.(conditions := Pop(s.conditions), mode := Last(s.modeStack),
                       modeStack := Pop(s.modeStack), scopes := Pop(s.scopes)))
    else LoopTail(s)
  }

  /** `TailSign` with both defects corrected: closing an if-block disposes
    * the scope only when a branch opened one, and the loop half runs only
    * when the `end` closes a loop. */
  function Tail(s: Ctl): Option<Ctl>
  {
    if InCondition(s) then
      if s.conditions == [] || s.modeStack == [] || (Last(s.conditions) && s.scopes == []) then None
      else Some(s.(conditions := Pop(s.conditions), mode := Last(s.modeStack),
                   modeStack := Pop(s.modeStack),
                   scopes := if Last(s.conditions) then Pop(s.scopes) else s.scopes))
    else LoopTail(s)
  }

  /** The switch of `Run` on the code of one line's result. */
  function Dispatch(s: Ctl, msg: Message, selfManaged: bool): Option<Ctl>
  {
    match msg.code
    case CodeConditionRoot => Some(Root(s, GetBooleanValue(msg.value)))
    case CodeConditionBranch => Some(if s.nestHeadCount > 0 then s else Branch(s, GetBooleanValue(msg.value)))
    case CodeConditionLeaf => Some(if s.nestHeadCount > 0 then s else Leaf(s))
    case CodeHeadSign => Some(Head(s, GetBooleanValue(msg.value), selfManaged))
    case CodeFillingSign => Some(s.(nestHeadCount := s.nestHeadCount + 1))
    case CodeTailSign =>
      if s.nestHeadCount > 0 then Some(s.(nestHeadCount := s.nestHeadCount - 1)) else Tail(s)
    case _ => Some(s)
  }

  // ---------------------------------------------------------------------
  // The main loop of `Run`

  /** What the main loop runs on: the number of stored lines, what running
    * line `i` in mode `m` over scopes `sc` gives (`exec(i, m, sc)`: its
    * result and the scopes it leaves), and whether line `i` manages its
    * own objects. */
  datatype Script = Script(count: nat, exec: (SizeT, Mode, seq<Scope>) -> LineRun, selfManaged: SizeT -> bool)

  /** What one line of the main loop does: after the line has left its
    * scopes, stop on a fatal result, report a pop on an empty stack, or
    * move to the next state and line. */
  datatype StepResult = Stopped(result: Message, state: Ctl) | Undefined(result: Message, state: Ctl) | Next(result: Message, state: Ctl)

  function Advance(s: Ctl, script: Script): StepResult
  {
    var run := script.exec(s.current, s.mode, s.scopes);
    var u := s.(scopes := run.scopes);
    if run.result.value == StrFatalError then Stopped(run.result, u)
    else match Dispatch(u, run.result, script.selfManaged(s.current))
      case None => Undefined(run.result, u)
      case Some(t) => Next(run.result, t.(current := Inc(t.current)))
  }

  /** Where the main loop ends: the state, the last result, the number of
    * lines dispatched and whether a stack was popped empty. */
  datatype Outcome = Outcome(state: Ctl, result: Message, steps: nat, undefined: bool)

  /** An outcome with `n` more lines counted. */
  function Shift(o: Outcome, n: nat): Outcome
  {
    o.(steps := o.steps + n)
  }

  /** The main loop from `s`, `result` being the last result, for at most
    * `fuel` lines. */
  function Iterate(s: Ctl, result: Message, script: Script, fuel: nat): Outcome
    decreases fuel
  {
    if fuel == 0 || s.current >= script.count || !s.health then Outcome(s, result, 0, false)
    else match Advance(s, script)
      case Stopped(r, t) => Outcome(t, r, 0, false)
      case Undefined(r, t) => Outcome(t, r, 0, true)
      case Next(r, t) => Shift(Iterate(t, r, script, fuel - 1), 1)
  }

  /** The state the main loop starts from: Normal mode, nothing nested,
    * the first line, healthy, with the object scope opened. */
  function RunStart(s: Ctl): Ctl
  {
    s.(mode := Normal, nestHeadCount := 0, current := 0, health := true, scopes := s.scopes + [map[]])
  }

  /** One turn of the main loop, unfolded. */
  lemma IterateUnfolds(s: Ctl, result: Message, script: Script, fuel: nat)
    requires fuel > 0 && s.current < script.count && s.health
    ensures Iterate(s, result, script, fuel)
      == match Advance(s, script)
         case Stopped(r, t) => Outcome(t, r, 0, false)
         case Undefined(r, t) => Outcome(t, r, 0, true)
         case Next(r, t) => Shift(Iterate(t, r, script, fuel - 1), 1)
  {
  }

  /** `full`, a run of at most `fuel` lines, is after `n` lines in state
    * `s` with last result `result`. */
  predicate Resumes(full: Outcome, s: Ctl, result: Message, script: Script, fuel: nat, n: nat)
  {
    n <= fuel && full == Shift(Iterate(s, result, script, fuel - n), n)
  }

  /** The main loop does nothing once the lines, the health or the fuel
    * run out. */
  lemma ResumesDone(full: Outcome, s: Ctl, result: Message, script: Script, fuel: nat, n: nat)
    requires Resumes(full, s, result, script, fuel, n)
    requires n == fuel || s.current >= script.count || !s.health
    ensures full == Outcome(s, result, n, false)
  {
  }

  /** The loop runs past the last line unless the machine turns unhealthy,
    * a line reports a fatal error, a stack is popped empty, or the fuel
    * runs out; it dispatches at most `fuel` lines. */
  lemma {:induction false} IterateStops(s: Ctl, result: Message, script: Script, fuel: nat)
    ensures var o := Iterate(s, result, script, fuel);
      && o.steps <= fuel
      && (o.steps < fuel && !o.undefined ==>
            o.state.current >= script.count || !o.state.health || o.result.value == StrFatalError)
    decreases fuel
  {
    if fuel > 0 && s.current < script.count && s.health {
      match Advance(s, script)
      case Next(r, t) => IterateStops(t, r, script, fuel - 1);
      case _ =>
    }
  }

  // ---------------------------------------------------------------------
  // Properties of the transitions

  /** An `if` whose value is true enters its branch and opens a scope; a
    * false one waits for a later branch and opens none. Either way the old
    * mode is saved on top of the mode stack. */
  lemma RootEnters(s: Ctl, value: bool)
    ensures var r := Root(s, value);
      && Last(r.modeStack) == s.mode && Pop(r.modeStack) == s.modeStack
      && Last(r.conditions) == value && Pop(r.conditions) == s.conditions
      && (r.mode == Condition <==> value) && InCondition(r)
      && |r.scopes| == |s.scopes| + (if value then 1 else 0)
  {
  }

  /** An `elif` enters Condition exactly when no branch was taken yet, the
    * block is skipping and the value is true; without an open block it
    * only clears `health`. */
  lemma BranchEnters(s: Ctl, value: bool)
    ensures var r := Branch(s, value);
      && (r.mode == Condition && s.mode != Condition <==>
            s.conditions != [] && !Last(s.conditions) && s.mode == NextCondition && value)
      && (s.conditions == [] ==> r == s.(health := false))
      && |r.conditions| == |s.conditions| && r.modeStack == s.modeStack
  {
  }

  /** An `else` is taken exactly when no earlier branch was; afterwards a
    * branch of the block has been taken. */
  lemma LeafEnters(s: Ctl)
    requires s.conditions != []
    ensures var r := Leaf(s);
      && (r.mode == Condition <==> !Last(s.conditions))
      && (r.mode != Condition ==> r.mode == NextCondition)
      && Last(r.conditions) && |r.conditions| == |s.conditions| && r.health == s.health
  {
  }

  /** Inside a head opened in skipped code, `elif`, `else` and `end` only
    * move the nesting counter. */
  lemma NestedOnlyCounts(s: Ctl, msg: Message, selfManaged: bool)
    requires s.nestHeadCount > 0
    requires msg.code == CodeConditionBranch || msg.code == CodeConditionLeaf || msg.code == CodeTailSign
    ensures Dispatch(s, msg, selfManaged)
         == Some(s.(nestHeadCount := if msg.code == CodeTailSign then s.nestHeadCount - 1 else s.nestHeadCount))
  {
  }

  /** The event of one `elif` or `else` line of an if-block. */
  datatype Clause = Elif(value: bool) | Else

  /** The state after the `elif`/`else` lines of a block, in order. */
  function Clauses(s: Ctl, cs: seq<Clause>): Ctl
    decreases |cs|
  {
    if cs == [] then s
    else
      var t := match Last(cs) case Elif(v) => Branch(Clauses(s, Pop(cs)), v) case Else => Leaf(Clauses(s, Pop(cs)));
      t
  }

  /** The shape of a machine inside an if-block opened on `s`: one more
    * saved mode and condition flag, and one more scope exactly when a
    * branch has been taken. */
  predicate InBlock(t: Ctl, s: Ctl)
  {
    && InCondition(t)
    && t.modeStack == s.modeStack + [s.mode]
    && |t.conditions| == |s.conditions| + 1
    && t.conditions == s.conditions + [Last(t.conditions)]
    && (if Last(t.conditions) then |t.scopes| == |s.scopes| + 1 && Pop(t.scopes) == s.scopes else t.scopes == s.scopes)
    && t == s.(mode := t.mode, modeStack := t.modeStack, conditions := t.conditions, scopes := t.scopes)
  }

  lemma {:induction false} ClausesInBlock(s: Ctl, value: bool, cs: seq<Clause>)
    ensures InBlock(Clauses(Root(s, value), cs), s)
    decreases |cs|
  {
    if cs != [] {
      ClausesInBlock(s, value, Pop(cs));
      var t := Clauses(Root(s, value), Pop(cs));
      assert t.conditions == s.conditions + [Last(t.conditions)];
      match Last(cs)
      case Elif(v) =>
        var r := Branch(t, v);
        if !Last(t.conditions) && t.mode == NextCondition && v {
          assert r.conditions == s.conditions + [true];
          assert Pop(r.scopes) == t.scopes;
        }
      case Else =>
        var r := Leaf(t);
        if !Last(t.conditions) {
          assert r.conditions == s.conditions + [true];
          assert Pop(r.scopes) == t.scopes;
        }
    }
  }

  /** With the corrected `TailSign`, an if-block (its `if`, any `elif` and
    * `else` lines, and its `end`) leaves the control state exactly as it
    * found it: mode, every stack and the scopes. */
  lemma {:induction false} IfBlockRestores(s: Ctl, value: bool, cs: seq<Clause>)
    ensures Tail(Clauses(Root(s, value), cs)) == Some(s)
  {
    ClausesInBlock(s, value, cs);
    var t := Clauses(Root(s, value), cs);
    assert Pop(t.conditions) == s.conditions;
    assert Pop(t.modeStack) == s.modeStack;
  }

  /** A `while` entered with a true value records `current - 1` as its head,
    * so the `end` of the body rewinds to the head line: `Run` then moves on
    * to `current + 1`, which is the `while` line again. */
  lemma {:induction false} LoopRewinds(s: Ctl, selfManaged: bool, body: Ctl)
    requires !selfManaged && s.scopes != []
    requires body == Head(s, true, selfManaged).(current := body.current)
    ensures LoopTail(body).Some?
    ensures Inc(LoopTail(body).value.current) == s.current
    ensures Last(LoopTail(body).value.cycleTail) == Dec(body.current)
  {
    DecIncInverse(s.current);
  }

  /** The state inside a loop entered from `s` at line `s.current`. */
  function InLoop(s: Ctl): Ctl
  {
    s.(mode := Cycle, modeStack := s.modeStack + [s.mode],
       cycleNest := s.cycleNest + [Dec(s.current)], scopes := s.scopes + [map[]])
  }

  lemma LoopFirstEnd(s: Ctl, e: SizeT)
    requires s.cycleTail == [] || Last(s.cycleTail) != Dec(e)
    ensures LoopTail(InLoop(s).(current := e))
         == Some(InLoop(s).(current := Dec(s.current), cycleTail := s.cycleTail + [Dec(e)]))
  {
    var t := InLoop(s).(current := e);
    assert ClearTop(t.scopes) == t.scopes;
  }

  lemma LoopExit(s: Ctl, e: SizeT)
    ensures var b := InLoop(s).(current := s.current, cycleTail := s.cycleTail + [Dec(e)]);
      Head(b, false, false) == b.(mode := CycleJump, current := Dec(e))
    ensures var c := InLoop(s).(mode := CycleJump, current := e, cycleTail := s.cycleTail + [Dec(e)]);
      LoopTail(c) == Some(s.(current := e))
  {
    var c := InLoop(s).(mode := CycleJump, current := e, cycleTail := s.cycleTail + [Dec(e)]);
    assert Pop(c.modeStack) == s.modeStack && Pop(c.cycleNest) == s.cycleNest;
    assert Pop(c.cycleTail) == s.cycleTail && Pop(c.scopes) == s.scopes;
  }

  /** A whole loop: the `while` at line `s.current` is entered, its body
    * runs up to the `end` at line `e`, the `end` rewinds to the head, the
    * head is evaluated false, execution jumps back to the `end`, and the
    * `end` leaves the loop. Afterwards the control state is the one before
    * the loop, at the line of the `end`, so that `Run` goes on after it. */
  lemma {:induction false} LoopRoundTrip(s: Ctl, e: SizeT)
    requires s.cycleNest == [] || Last(s.cycleNest) != Dec(s.current)
    requires s.cycleTail == [] || Last(s.cycleTail) != Dec(e)
    ensures var b := LoopTail(Head(s, true, false).(current := e));
      && b.Some?
      && var c := Head(b.value.(current := Inc(b.value.current)), false, false);
         LoopTail(c.(current := Inc(c.current))) == Some(s.(current := e))
  {
    DecIncInverse(s.current);
    DecIncInverse(e);
    assert Head(s, true, false) == InLoop(s);
    LoopFirstEnd(s, e);
    LoopExit(s, e);
  }

  // ---------------------------------------------------------------------
  // The machine

  class ScriptMachine {
    var mode: Mode
    var modeStack: seq<Mode>
    var conditions: seq<bool>
    var cycleNest: seq<SizeT>
    var cycleTail: seq<SizeT>
    var current: SizeT
    var nestHeadCount: nat
    var health: bool
    var scopes: seq<Scope>

    function State(): Ctl
      reads this
    {
      Ctl(mode, modeStack, conditions, cycleNest, cycleTail, current, nestHeadCount, health, scopes)
    }

    method SetState(s: Ctl)
      modifies this
      ensures State() == s
    {
      mode, modeStack, conditions := s.mode, s.modeStack, s.conditions;
      cycleNest, cycleTail, current := s.cycleNest, s.cycleTail, s.current;
      nestHeadCount, health, scopes := s.nestHeadCount, s.health, s.scopes;
    }

    /** A machine over no lines, in Normal mode with empty stacks. */
    constructor ()
      ensures State() == Ctl(Normal, [], [], [], [], 0, 0, true, [])
    {
      mode, modeStack, conditions := Normal, [], [];
      cycleNest, cycleTail, current := [], [], 0;
      nestHeadCount, health, scopes := 0, true, [];
    }

    method ConditionRoot(value: bool)
      modifies this
      ensures State() == Root(old(State()), value)
    {
      modeStack := modeStack + [mode];
      if value {
        scopes := scopes + [map[]];
        mode := Condition;
        conditions := conditions + [true];
      } else {
        mode := NextCondition;
        conditions := conditions + [false];
      }
    }

    method ConditionBranch(value: bool)
      modifies this
      ensures State() == Branch(old(State()), value)
    {
      if conditions != [] {
        if !Last(conditions) && mode == NextCondition && value {
          scopes := scopes + [map[]];
          mode := Condition;
          conditions := SetLast(conditions, true);
        }
      } else {
        health := false;
      }
    }

    method ConditionLeaf()
      modifies this
      ensures State() == Leaf(old(State()))
    {
      if conditions != [] {
        if Last(conditions) {
          mode := NextCondition;
        } else {
          scopes := scopes + [map[]];
          conditions := SetLast(conditions, true);
          mode := Condition;
        }
      } else {
        health := false;
      }
    }

    method HeadSign(value: bool, selfManaged: bool)
      modifies this
      ensures State() == Head(old(State()), value, selfManaged)
    {
      var head := Dec(current);
      if cycleNest == [] || Last(cycleNest) != head {
        modeStack := modeStack + [mode];
        if !selfManaged {
          scopes := scopes + [map[]];
        }
      }
      if value {
        mode := Cycle;
        if cycleNest == [] || Last(cycleNest) != head {
          cycleNest := cycleNest + [head];
        }
      } else {
        mode := CycleJump;
        if cycleTail != [] {
          current := Last(cycleTail);
        }
      }
    }

    /** `TailSign`, with the two corrections described at `Tail`. */
    method TailSign()
      requires Tail(State()).Some?
      modifies this
      ensures State() == Tail(old(State())).value
    {
      if mode == Condition || mode == NextCondition {
        var taken := Last(conditions);
        conditions := Pop(conditions);
        mode := Last(modeStack);
        modeStack := Pop(modeStack);
        if taken {
          scopes := Pop(scopes);
        }
      } else if mode == Cycle {
        var tail := Dec(current);
        if cycleTail == [] || Last(cycleTail) != tail {
          cycleTail := cycleTail + [tail];
        }
        current := Last(cycleNest);
        scopes := ClearTop(scopes);
      } else if mode == CycleJump {
        mode := Last(modeStack);
        modeStack := Pop(modeStack);
        cycleNest := Pop(cycleNest);
        cycleTail := Pop(cycleTail);
        scopes := Pop(scopes);
      }
    }

    /** `Run`: resets the mode, the nesting count, the position and the
      * health, and over a non-empty script opens the object scope, runs
      * the main loop as `Iterate` gives it and disposes the scope again.
      * `undefined` reports that a transition or the final dispose would
      * pop or read an empty stack. */
    method Run(count: nat, exec: (SizeT, Mode, seq<Scope>) -> LineRun, selfManaged: SizeT -> bool, fuel: nat)
      returns (result: Message, steps: nat, undefined: bool)
      requires count < SizeMod
      modifies this
      ensures count == 0 ==>
                result == NewMessage() && steps == 0 && !undefined
                && State() == old(State()).(mode := Normal, nestHeadCount := 0, current := 0, health := true)
      ensures count > 0 ==>
                var o := Iterate(RunStart(old(State())), NewMessage(), Script(count, exec, selfManaged), fuel);
                && result == o.result && steps == o.steps
                && (undefined <==> o.undefined || o.state.scopes == [])
                && State() == if undefined then o.state else o.state.(scopes := Pop(o.state.scopes))
    {
      mode, nestHeadCount, current, health := Normal, 0, 0, true;
      result, steps, undefined := NewMessage(), 0, false;
      if count == 0 {
        return;
      }
      scopes := scopes + [map[]];
      result, steps, undefined := MainLoop(Script(count, exec, selfManaged), fuel);
      if !undefined {
        if scopes == [] {
          undefined := true;
        } else {
          scopes := Pop(scopes);
        }
      }
    }

    /** The main loop of `Run`: one line per turn, as `Iterate` gives it. */
    method MainLoop(script: Script, fuel: nat) returns (result: Message, steps: nat, undefined: bool)
      modifies this
      ensures var o := Iterate(old(State()), NewMessage(), script, fuel);
        result == o.result && steps == o.steps && undefined == o.undefined && State() == o.state
    {
      result, steps, undefined := NewMessage(), 0, false;
      ghost var full := Iterate(State(), result, script, fuel);
      while current < script.count && health && steps < fuel
        invariant steps <= fuel
        invariant Resumes(full, State(), result, script, fuel, steps)
        decreases fuel - steps
      {
        var step := Turn(script, fuel, result, full, steps);
        result := step.result;
        if !step.Next? {
          undefined := step.Undefined?;
          return;
        }
        steps := steps + 1;
      }
      ResumesDone(full, State(), result, script, fuel, steps);
    }

    /** One turn of the main loop, related to `Iterate`: the run `full`,
      * resumed after `n` lines, goes on from the new state. */
    method Turn(script: Script, fuel: nat, result0: Message, ghost full: Outcome, ghost n: nat)
      returns (step: StepResult)
      requires current < script.count && health && n < fuel
      requires Resumes(full, State(), result0, script, fuel, n)
      modifies this
      ensures step.Next? ==> Resumes(full, State(), step.result, script, fuel, n + 1)
      ensures !step.Next? ==> full == Outcome(State(), step.result, n, step.Undefined?)
    {
      IterateUnfolds(State(), result0, script, fuel - n);
      step := RunLine(script);
    }

    /** One line of the main loop: the line is executed and leaves its
      * scopes; unless its result is fatal, the switch on its code changes
      * the control state and the position advances. */
    method RunLine(script: Script) returns (step: StepResult)
      modifies this
      ensures step == Advance(old(State()), script) && State() == step.state
    {
      var run := script.exec(current, mode, scopes);
      scopes := run.scopes;
      if run.result.value == StrFatalError {
        return Stopped(run.result, State());
      }
      var next := Dispatch(State(), run.result, script.selfManaged(current));
      if next.None? {
        return Undefined(run.result, State());
      }
      SetState(next.value);
      current := Inc(current);
      step := Next(run.result, State());
    }
  }

  // ---------------------------------------------------------------------
  // Findings

  /** As written, the `end` of an `if` nested in a `while` body rewinds the
    * loop: after closing the if-block the restored mode is Cycle, and the
    * loop half of `TailSign` runs as well. The corrected `Tail` leaves the
    * line counter alone. */
  lemma NestedIfEndRewindsLoop()
    ensures var s := Ctl(Cycle, [Normal], [], [4], [], 9, 0, true, [map[]]);
      && TailAsWritten(Root(s, true)).Some?
      && TailAsWritten(Root(s, true)).value.current == 4
      && Tail(Root(s, true)) == Some(s)
  {
    var s := Ctl(Cycle, [Normal], [], [4], [], 9, 0, true, [map[]]);
    IfBlockRestores(s, true, []);
  }

  /** As written, an `if` whose branches are all skipped opens no scope but
    * its `end` disposes one, so the enclosing scope is lost. */
  lemma SkippedIfDropsScope()
    ensures var s := Ctl(Normal, [], [], [], [], 3, 0, true, [map[]]);
      && TailAsWritten(Root(s, false)) == Some(s.(scopes := []))
      && Tail(Root(s, false)) == Some(s)
  {
    var s := Ctl(Normal, [], [], [], [], 3, 0, true, [map[]]);
    IfBlockRestores(s, false, []);
  }
}
