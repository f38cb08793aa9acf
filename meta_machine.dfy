// The control block of the second interpreter generation: the modes, the
// stacks and the flags a `Machine` keeps while it runs the lines of a
// script or function, the transitions on if/elif/else, case/when,
// while/end, break and continue, the skipping of lines in the jump modes,
// and the binding of call arguments to parameter names.

module MetaMachine {
  import opened Common
  import opened Objects
  import opened Parser
  import opened MetaLines
  import opened MetaDefs

  /** The control state of a run: the `MachCtlBlk` fields the transitions
    * use, the machine's health flag and the stack of scopes. */
  datatype Ctl = Ctl(
    mode: Mode,
    modeStack: seq<Mode>,
    conditions: seq<bool>,
    cycleNest: seq<SizeT>,
    cycleTail: seq<SizeT>,
    current: SizeT,
    nestHeadCount: nat,
    sContinue: bool,
    sBreak: bool,
    health: bool,
    scopes: seq<Scope>)

  predicate InCondition(s: Ctl) { s.mode == Condition || s.mode == NextCondition }

  predicate InCase(s: Ctl) { s.mode == Case || s.mode == CaseJump }

  /** `CaseHead`: opens a scope, saves the mode, waits for a matching
    * `when`. */
  function OpenCase(s: Ctl): Ctl
  {
    s.(scopes := s.scopes + [map[]], modeStack := s.modeStack + [s.mode],
       mode := CaseJump, conditions := s.conditions + [false])
  }

  /** `WhenHead`: a `when` met while a branch runs ends that branch; the
    * first true `when` of a block enters its branch. */
  function When(s: Ctl, value: bool): Ctl
  {
    if s.conditions == [] then s
    else if s.mode == Case && Last(s.conditions) then s.(mode := CaseJump)
    else if value && !Last(s.conditions) then s.(mode := Case, conditions := SetLast(s.conditions, true))
    else s
  }

  /** `ConditionRoot`: saves the mode, opens a scope and pushes the value. */
  function Root(s: Ctl, value: bool): Ctl
  {
    s.(modeStack := s.modeStack + [s.mode], scopes := s.scopes + [map[]],
       mode := if value then Condition else NextCondition,
       conditions := s.conditions + [value])
  }

  /** `ConditionBranch`: an `elif` enters its branch when no branch was
    * taken and its value is true, and ends a running branch. */
  function Branch(s: Ctl, value: bool): Ctl
  {
    if s.conditions == [] then s.(health := false)
    else if !Last(s.conditions) && s.mode == NextCondition && value then
      s.(scopes := s.scopes + [map[]], mode := Condition, conditions := SetLast(s.conditions, true))
    else if Last(s.conditions) && s.mode == Condition then s.(mode := NextCondition)
    else s
  }

  /** `ConditionLeaf`: an `else`, in an if-block or a case-block. */
  function Leaf(s: Ctl): Ctl
  {
    if s.conditions == [] then s.(health := false)
    else if Last(s.conditions) then
      if InCondition(s) then s.(mode := NextCondition)
      else if InCase(s) then s.(mode := CaseJump)
      else s
    else
      var t := s.(scopes := s.scopes + [map[]], conditions := SetLast(s.conditions, true));
      if s.mode == NextCondition then t.(mode := Condition)
      else if s.mode == CaseJump then t.(mode := Case)
      else t
  }

  /** `HeadSign`: on first entry of a `while` (the innermost loop head is
    * not this line) saves the mode and opens a scope. A true value enters
    * the loop and records `current - 1` as its head; a false value skips
    * the body, jumping to the recorded tail when there is one. */
  function Head(s: Ctl, value: bool): Ctl
  {
    var entering := s.cycleNest == [] || Last(s.cycleNest) != Dec(s.current);
    var t := if entering then s.(modeStack := s.modeStack + [s.mode], scopes := s.scopes + [map[]]) else s;
    if value then
      t.(mode := Cycle, cycleNest := if entering then t.cycleNest + [Dec(s.current)] else t.cycleNest)
    else
      t.(mode := CycleJump, current := if t.cycleTail != [] then Last(t.cycleTail) else t.current)
  }

  /** Pushes the tail index unless it is already on top. */
  function RecordTail(tail: seq<SizeT>, index: SizeT): (r: seq<SizeT>)
    ensures r != [] && Last(r) == index
    ensures r == tail || r == tail + [index]
  {
    if tail == [] || Last(tail) != index then tail + [index] else tail
  }

  function ClearTop(scopes: seq<Scope>): seq<Scope>
    requires scopes != []
  {
    SetLast(scopes, map[])
  }

  /** `TailSign`: the `end` of a block. `None` is a pop or top on an empty
    * stack, which the source leaves undefined. */
  function Tail(s: Ctl): Option<Ctl>
  {
    if InCondition(s) || InCase(s) then CloseBlock(s)
    else if s.mode == Cycle then RewindLoop(s)
    else if s.mode == CycleJump && s.sContinue then ContinueLoop(s)
    else if s.mode == CycleJump then LeaveLoop(s)
    else Some(s)
  }

  /** The end of an if-block or a case-block: the condition entry and the
    * saved mode are popped and the block's scope is disposed. */
  function CloseBlock(s: Ctl): Option<Ctl>
  {
    if s.conditions == [] || s.modeStack == [] || s.scopes == [] then None
    else Some(s.(conditions := Pop(s.conditions), mode := Last(s.modeStack),
                 modeStack := Pop(s.modeStack), scopes := Pop(s.scopes)))
  }

  /** The end of a running loop body: the tail is recorded, execution goes
    * back to the head, and the loop scope is emptied but kept. */
  function RewindLoop(s: Ctl): Option<Ctl>
  {
    if s.cycleNest == [] || s.scopes == [] then None
    else Some(s.(cycleTail := RecordTail(s.cycleTail, Dec(s.current)),
                 current := Last(s.cycleNest), scopes := ClearTop(s.scopes)))
  }

  /** The end reached after `continue`: as `RewindLoop`, and the loop runs
    * again, the saved mode being overwritten with Cycle. */
  function ContinueLoop(s: Ctl): Option<Ctl>
  {
    if s.cycleNest == [] || s.modeStack == [] || s.scopes == [] then None
    else Some(s.(cycleTail := RecordTail(s.cycleTail, Dec(s.current)),
                 current := Last(s.cycleNest), mode := Cycle,
                 modeStack := SetLast(s.modeStack, Cycle), sContinue := false,
                 scopes := ClearTop(s.scopes)))
  }

  /** The end of a loop being left: the saved mode is restored, the loop
    * stacks are popped when not empty and the loop scope is disposed. */
  function LeaveLoop(s: Ctl): Option<Ctl>
  {
    if s.modeStack == [] || s.scopes == [] then None
    else Some(s.(sBreak := false, mode := Last(s.modeStack), modeStack := Pop(s.modeStack),
                 cycleNest := if s.cycleNest == [] then [] else Pop(s.cycleNest),
                 cycleTail := if s.cycleTail == [] then [] else Pop(s.cycleTail),
                 scopes := Pop(s.scopes)))
  }

  /** Whether the unwinding loop of `Continue` and `Break` stops at `s`. */
  predicate UnwindStops(s: Ctl) { s.modeStack == [] || s.mode == Cycle }

  /** One iteration of that loop: leaving a Condition level pops its
    * condition entry and counts its `end` as a nested head; every level
    * restores the saved mode. */
  function UnwindStep(s: Ctl): Ctl
    requires !UnwindStops(s) && !(s.mode == Condition && s.conditions == [])
  {
    var t := if s.mode == Condition
             then s.(conditions := Pop(s.conditions), nestHeadCount := s.nestHeadCount + 1) else s;
    t.(mode := Last(t.modeStack), modeStack := Pop(t.modeStack))
  }

  /** The unwinding loop; `None` is a pop of an empty condition stack. */
  function Unwind(s: Ctl): Option<Ctl>
    decreases |s.modeStack|
  {
    if UnwindStops(s) then Some(s)
    else if s.mode == Condition && s.conditions == [] then None
    else Unwind(UnwindStep(s))
  }

  function ContinueSpec(s: Ctl): Option<Ctl>
  {
    match Unwind(s)
    case None => None
    case Some(t) => Some(t.(mode := CycleJump, sContinue := true))
  }

  function BreakSpec(s: Ctl): Option<Ctl>
  {
    match Unwind(s)
    case None => None
    case Some(t) => Some(if t.mode == Cycle then t.(mode := CycleJump, sBreak := true) else t)
  }

  // ---------------------------------------------------------------------
  // Properties of the transitions

  /** Unwinding stops at Cycle or at an empty mode stack, changes only the
    * mode, the mode stack, the condition stack and the nested-head count,
    * and changes nothing when it leaves no level. */
  lemma {:induction false} UnwindFrame(s: Ctl)
    ensures Unwind(s).Some? ==>
      var r := Unwind(s).value;
      && UnwindStops(r)
      && r == s.(mode := r.mode, modeStack := r.modeStack, conditions := r.conditions, nestHeadCount := r.nestHeadCount)
      && |r.modeStack| <= |s.modeStack|
      && (|r.modeStack| == |s.modeStack| ==> r == s)
    decreases |s.modeStack|
  {
    if !UnwindStops(s) && !(s.mode == Condition && s.conditions == []) {
      UnwindFrame(UnwindStep(s));
    }
  }

  /** Unwinding keeps a prefix of the mode and condition stacks, and each
    * condition entry it pops is matched by one counted nested head. */
  lemma {:induction false} UnwindPrefix(s: Ctl)
    ensures Unwind(s).Some? ==>
      var r := Unwind(s).value;
      && |r.modeStack| <= |s.modeStack| && r.modeStack == s.modeStack[..|r.modeStack|]
      && |r.conditions| <= |s.conditions| && r.conditions == s.conditions[..|r.conditions|]
      && r.nestHeadCount + |r.conditions| == s.nestHeadCount + |s.conditions|
    decreases |s.modeStack|
  {
    if !UnwindStops(s) && !(s.mode == Condition && s.conditions == []) {
      var u := UnwindStep(s);
      UnwindPrefix(u);
      if Unwind(u).Some? {
        var r := Unwind(u).value;
        assert s.modeStack[..|r.modeStack|] == u.modeStack[..|r.modeStack|];
        assert s.conditions[..|r.conditions|] == u.conditions[..|r.conditions|];
      }
    }
  }

  /** The number of Condition modes among `ms`. */
  function ConditionLevels(ms: seq<Mode>): nat
  {
    if ms == [] then 0 else ConditionLevels(Pop(ms)) + (if Last(ms) == Condition then 1 else 0)
  }

  lemma {:induction false} ConditionLevelsAppend(ms: seq<Mode>, ns: seq<Mode>)
    ensures ConditionLevels(ms + ns) == ConditionLevels(ms) + ConditionLevels(ns)
    decreases |ns|
  {
    if ns != [] {
      assert Pop(ms + ns) == ms + Pop(ns) && Last(ms + ns) == Last(ns);
      ConditionLevelsAppend(ms, Pop(ns));
    } else {
      assert ms + ns == ms;
    }
  }

  /** When unwinding leaves levels, it stops at the saved mode just below
    * them, and it counts exactly the Condition modes among the levels it
    * leaves: the current mode and the saved modes above the one it stops
    * at. */
  lemma {:induction false} UnwindLevels(s: Ctl, r: Ctl)
    requires Unwind(s) == Some(r) && |r.modeStack| < |s.modeStack|
    ensures var k := |r.modeStack|;
      && r.mode == s.modeStack[k]
      && r.nestHeadCount == s.nestHeadCount + ConditionLevels(s.modeStack[k + 1..] + [s.mode])
    decreases |s.modeStack|
  {
    var u := UnwindStep(s);
    assert Unwind(u) == Some(r);
    UnwindFrame(u);
    UnwindPrefix(u);
    var k := |r.modeStack|;
    assert u.modeStack == Pop(s.modeStack) && u.mode == Last(s.modeStack);
    assert u.nestHeadCount == s.nestHeadCount + (if s.mode == Condition then 1 else 0);
    LevelsShift(s.modeStack, k, s.mode);
    if k < |u.modeStack| {
      UnwindLevels(u, r);
    }
  }

  /** Moving the top of a mode stack into the levels being left. */
  lemma LevelsShift(ms: seq<Mode>, k: nat, m: Mode)
    requires k < |ms|
    ensures k + 1 < |ms| ==>
      ConditionLevels(ms[k + 1..] + [m])
      == ConditionLevels(Pop(ms)[k + 1..] + [Last(ms)]) + (if m == Condition then 1 else 0)
    ensures k + 1 == |ms| ==> ConditionLevels(ms[k + 1..] + [m]) == (if m == Condition then 1 else 0)
  {
    assert Pop([m]) == [];
    if k + 1 < |ms| {
      var inner := Pop(ms)[k + 1..] + [Last(ms)];
      assert ms[k + 1..] == inner;
      ConditionLevelsAppend(inner, [m]);
    } else {
      assert ms[k + 1..] + [m] == [m];
    }
  }

  /** `continue` always ends in CycleJump with the continue flag set. */
  lemma ContinueJumps(s: Ctl)
    requires ContinueSpec(s).Some?
    ensures var r := ContinueSpec(s).value;
      && r.mode == CycleJump && r.sContinue && r.sBreak == s.sBreak
      && r.nestHeadCount + |r.conditions| == s.nestHeadCount + |s.conditions|
  {
    UnwindFrame(s);
    UnwindPrefix(s);
  }

  /** `break` sets CycleJump and the break flag exactly when unwinding
    * reached a loop; otherwise it stops with an empty mode stack and
    * changes no flag. */
  lemma BreakJumpsOnlyInLoop(s: Ctl)
    requires BreakSpec(s).Some?
    ensures var r := BreakSpec(s).value;
      && (Unwind(s).value.mode == Cycle ==> r.mode == CycleJump && r.sBreak)
      && (Unwind(s).value.mode != Cycle ==> r.modeStack == [] && r.sBreak == s.sBreak && r.mode == Unwind(s).value.mode)
      && r.nestHeadCount + |r.conditions| == s.nestHeadCount + |s.conditions|
  {
    UnwindFrame(s);
    UnwindPrefix(s);
  }

  /** An `if` saves the mode, opens a scope, and enters Condition exactly
    * when its value is true. */
  lemma RootEnters(s: Ctl, value: bool)
    ensures var r := Root(s, value);
      && Pop(r.modeStack) == s.modeStack && Last(r.modeStack) == s.mode
      && Pop(r.conditions) == s.conditions && Last(r.conditions) == value
      && (r.mode == Condition <==> value) && InCondition(r)
      && Pop(r.scopes) == s.scopes
  {
  }

  /** An `elif` enters Condition exactly when no branch was taken, the
    * block is skipping and its value is true; it ends a running branch;
    * without an open block it only clears `health`. */
  lemma BranchEnters(s: Ctl, value: bool)
    ensures var r := Branch(s, value);
      && (s.conditions == [] ==> r == s.(health := false))
      && (s.conditions != [] ==>
            && (r.mode == Condition && s.mode != Condition <==> !Last(s.conditions) && s.mode == NextCondition && value)
            && (r.mode == Condition && s.mode != Condition ==> Last(r.conditions) && Pop(r.scopes) == s.scopes)
            && (Last(s.conditions) && s.mode == Condition ==> r.mode == NextCondition)
            && |r.conditions| == |s.conditions| && Pop(r.conditions) == Pop(s.conditions))
  {
  }

  /** An `else` with a taken branch skips to the end of the block; one
    * without enters its branch and marks the block taken. */
  lemma LeafEnters(s: Ctl)
    requires s.conditions != [] && (InCondition(s) || InCase(s))
    ensures var r := Leaf(s);
      && Last(r.conditions) && Pop(r.conditions) == Pop(s.conditions)
      && (Last(s.conditions) ==> r.mode == (if InCondition(s) then NextCondition else CaseJump))
      && (!Last(s.conditions) && s.mode == NextCondition ==> r.mode == Condition)
      && (!Last(s.conditions) && s.mode == CaseJump ==> r.mode == Case)
  {
  }

  /** `case` saves the mode and waits; `when` runs at most one branch: it
    * enters Case only while no branch was taken, and a `when` met while a
    * branch runs ends it. */
  lemma WhenAtMostOnce(s: Ctl, value: bool)
    requires s.conditions != []
    ensures var r := When(s, value);
      && (r.mode == Case && s.mode != Case ==> !Last(s.conditions) && value && Last(r.conditions))
      && (s.mode == Case && Last(s.conditions) ==> r.mode == CaseJump)
      && (Last(s.conditions) ==> r.conditions == s.conditions)
      && Pop(r.conditions) == Pop(s.conditions)
  {
  }

  /** A `case` block opened on `s` and closed by its `end` gives `s` back,
    * whatever `when` lines came between, as long as none is an `else`. */
  lemma {:induction false} CaseBlockRestores(s: Ctl, whens: seq<bool>)
    ensures Tail(Whens(OpenCase(s), whens)) == Some(s)
  {
    WhensInBlock(s, whens);
    var t := Whens(OpenCase(s), whens);
    assert Pop(t.conditions) == s.conditions && Pop(t.modeStack) == s.modeStack && Pop(t.scopes) == s.scopes;
  }

  function Whens(s: Ctl, whens: seq<bool>): Ctl
  {
    if whens == [] then s else When(Whens(s, Pop(whens)), Last(whens))
  }

  lemma {:induction false} WhensInBlock(s: Ctl, whens: seq<bool>)
    ensures var t := Whens(OpenCase(s), whens);
      && InCase(t) && |t.conditions| == |s.conditions| + 1 && Pop(t.conditions) == s.conditions
      && t == OpenCase(s).(mode := t.mode, conditions := t.conditions)
  {
    if whens != [] {
      WhensInBlock(s, Pop(whens));
    }
  }

  /** The events of the `elif` and `else` lines of an if-block. */
  datatype Clause = ElifLine(value: bool) | ElseLine

  function Clauses(s: Ctl, cs: seq<Clause>): Ctl
  {
    if cs == [] then s
    else match Last(cs)
      case ElifLine(v) => Branch(Clauses(s, Pop(cs)), v)
      case ElseLine => Leaf(Clauses(s, Pop(cs)))
  }

  /** Whether a clause enters its branch when no branch was taken. */
  predicate Enters(c: Clause) { c == ElseLine || c == ElifLine(true) }

  /** The shape inside an if-block opened on `s`: one more saved mode and
    * flag, the scope of the `if`, and one more scope when a later branch
    * was entered. */
  predicate InIfBlock(t: Ctl, s: Ctl, value: bool, cs: seq<Clause>)
  {
    && InCondition(t)
    && t.modeStack == s.modeStack + [s.mode]
    && |t.conditions| == |s.conditions| + 1 && Pop(t.conditions) == s.conditions
    && (Last(t.conditions) <==> value || exists i :: 0 <= i < |cs| && Enters(cs[i]))
    && (!Last(t.conditions) ==> t.mode == NextCondition)
    && t.scopes == s.scopes + [map[]] + (if !value && Last(t.conditions) then [map[]] else [])
    && t == s.(mode := t.mode, modeStack := t.modeStack, conditions := t.conditions, scopes := t.scopes)
  }

  lemma {:induction false} ClausesInBlock(s: Ctl, value: bool, cs: seq<Clause>)
    ensures InIfBlock(Clauses(Root(s, value), cs), s, value, cs)
  {
    if cs != [] {
      var p := Pop(cs);
      ClausesInBlock(s, value, p);
      assert cs == p + [Last(cs)];
      ClauseKeepsBlock(Clauses(Root(s, value), p), s, value, p, Last(cs));
    }
  }

  lemma ClauseKeepsBlock(t: Ctl, s: Ctl, value: bool, p: seq<Clause>, c: Clause)
    requires InIfBlock(t, s, value, p)
    ensures InIfBlock(if c.ElseLine? then Leaf(t) else Branch(t, c.value), s, value, p + [c])
  {
    var cs := p + [c];
    var r := if c.ElseLine? then Leaf(t) else Branch(t, c.value);
    assert Pop(r.conditions) == Pop(t.conditions);
    var before := exists i :: 0 <= i < |p| && Enters(p[i]);
    var after := exists i :: 0 <= i < |cs| && Enters(cs[i]);
    assert after <==> before || Enters(c) by {
      if before {
        var i :| 0 <= i < |p| && Enters(p[i]);
        assert cs[i] == p[i];
      }
      if Enters(c) {
        assert cs[|p|] == c;
      }
      if after {
        var i :| 0 <= i < |cs| && Enters(cs[i]);
        if i < |p| {
          assert cs[i] == p[i];
        }
      }
    }
  }

  /** An if-block (its `if`, any `elif` and `else` lines and its `end`)
    * restores the mode and every stack; the scope of the `if` is disposed,
    * but when the branch taken is a later one its scope stays open. */
  lemma {:induction false} IfBlockScopes(s: Ctl, value: bool, cs: seq<Clause>)
    ensures var taken := exists i :: 0 <= i < |cs| && Enters(cs[i]);
      Tail(Clauses(Root(s, value), cs))
      == Some(s.(scopes := s.scopes + (if !value && taken then [map[]] else [])))
  {
    ClausesInBlock(s, value, cs);
    var t := Clauses(Root(s, value), cs);
    assert Pop(t.modeStack) == s.modeStack;
    assert Pop(t.scopes) == s.scopes + (if !value && Last(t.conditions) then [map[]] else []);
  }

  /** The state inside a loop entered from `s` at line `s.current`. */
  function InLoop(s: Ctl): Ctl
  {
    s.(mode := Cycle, modeStack := s.modeStack + [s.mode],
       cycleNest := s.cycleNest + [Dec(s.current)], scopes := s.scopes + [map[]])
  }

  /** The first `end` of a running body records the tail and rewinds to
    * the line before the head. */
  lemma LoopEnds(s: Ctl, e: SizeT)
    requires s.cycleTail == [] || Last(s.cycleTail) != Dec(e)
    ensures Tail(InLoop(s).(current := e))
         == Some(InLoop(s).(current := Dec(s.current), cycleTail := s.cycleTail + [Dec(e)]))
  {
    var t := InLoop(s).(current := e);
    assert ClearTop(t.scopes) == t.scopes;
  }

  /** The `end` reached by the jump of a false head leaves the loop. */
  lemma LoopLeaves(s: Ctl, e: SizeT)
    requires !s.sContinue
    ensures var c := InLoop(s).(mode := CycleJump, current := e, cycleTail := s.cycleTail + [Dec(e)]);
      Tail(c) == Some(s.(current := e, sBreak := false))
  {
    var c := InLoop(s).(mode := CycleJump, current := e, cycleTail := s.cycleTail + [Dec(e)]);
    assert Pop(c.modeStack) == s.modeStack && Pop(c.cycleNest) == s.cycleNest;
    assert Pop(c.cycleTail) == s.cycleTail && Pop(c.scopes) == s.scopes;
  }

  /** A whole loop: the `while` at line `s.current` is entered, the body
    * runs to the `end` at line `e`, which rewinds to the head; the head is
    * then false, execution jumps back to the `end`, and the `end` leaves
    * the loop. Afterwards the state is the one before the loop, at the
    * `end` line and with the break flag cleared. */
  lemma {:induction false} LoopRoundTrip(s: Ctl, e: SizeT)
    requires !s.sContinue
    requires s.cycleNest == [] || Last(s.cycleNest) != Dec(s.current)
    requires s.cycleTail == [] || Last(s.cycleTail) != Dec(e)
    ensures var b := Tail(Head(s, true).(current := e));
      && b.Some?
      && var c := Head(b.value.(current := Inc(b.value.current)), false);
         Tail(c.(current := Inc(c.current))) == Some(s.(current := e, sBreak := false))
  {
    DecIncInverse(s.current);
    DecIncInverse(e);
    assert Head(s, true) == InLoop(s);
    LoopEnds(s, e);
    LoopLeaves(s, e);
    var b := InLoop(s).(current := Dec(s.current), cycleTail := s.cycleTail + [Dec(e)]);
    var c := Head(b.(current := s.current), false);
    assert c == InLoop(s).(mode := CycleJump, current := Dec(e), cycleTail := s.cycleTail + [Dec(e)]);
  }

  /** A `break` inside an if-block inside a loop: it leaves the if-block
    * without disposing its scope, counts the block's `end` as a nested
    * head, and makes the loop skip to its `end`. */
  lemma BreakLeavesIf(s: Ctl)
    requires s.mode == Cycle
    ensures var r := BreakSpec(Root(s, true));
      && r.Some?
      && r.value == s.(mode := CycleJump, sBreak := true, nestHeadCount := s.nestHeadCount + 1,
                       scopes := s.scopes + [map[]])
  {
    var t := Root(s, true);
    var u := UnwindStep(t);
    assert Pop(t.conditions) == s.conditions && Pop(t.modeStack) == s.modeStack;
    assert u == s.(nestHeadCount := s.nestHeadCount + 1, scopes := s.scopes + [map[]]);
    assert Unwind(u) == Some(u);
  }

  // ---------------------------------------------------------------------
  // Skipping and dispatch in `Run`


  function Placeholder(): Message { Combo(StrRedirect, CodeSuccess, StrPlaceHolder) }

  function HeadPlaceholder(): Message { Combo(StrRedirect, CodeHeadPlaceholder, StrTrue) }

  /** The result `Run` gives a line without executing it, by mode: in the
    * jump modes a line that needs an `end` is counted as a nested head and
    * the other lines, except those that can end the skip, are passed over.
    * `needsTail` is the token class that opens a block. */
  function Judge(mode: Mode, token: GenToken, needsTail: bool): Option<Message>
  {
    match mode
    case NextCondition =>
      if needsTail then Some(HeadPlaceholder())
      else if token != GtElse && token != GtEnd && token != GtElif then Some(Placeholder())
      else None
    case CycleJump =>
      if token != GtEnd && token != GtIf && token != GtWhile then Some(Placeholder()) else None
    case CaseJump =>
      if needsTail then Some(HeadPlaceholder())
      else if token != GtWhen && token != GtEnd then Some(Placeholder())
      else None
    case _ => None
  }

  /** The switch of `Run` on the code of one line's result. */
  function Dispatch(s: Ctl, msg: Message): Option<Ctl>
  {
    match msg.code
    case CodeContinue => ContinueSpec(s)
    case CodeBreak => BreakSpec(s)
    case CodeConditionRoot => Some(Root(s, GetBooleanValue(msg.value)))
    case CodeConditionBranch => Some(if s.nestHeadCount > 0 then s else Branch(s, GetBooleanValue(msg.value)))
    case CodeConditionLeaf => Some(if s.nestHeadCount > 0 then s else Leaf(s))
    case CodeCase => Some(OpenCase(s))
    case CodeWhen => Some(When(s, GetBooleanValue(msg.value)))
    case CodeHeadSign => Some(Head(s, GetBooleanValue(msg.value)))
    case CodeHeadPlaceholder => Some(s.(nestHeadCount := s.nestHeadCount + 1))
    case CodeTailSign =>
      if s.nestHeadCount > 0 then Some(s.(nestHeadCount := s.nestHeadCount - 1)) else Tail(s)
    case _ => Some(s)
  }

  /** Outside the jump modes every line is executed. In a jump mode a
    * skipped line leaves the control state alone, except that a line that
    * opens a block counts one nested head, whose `end` then only counts it
    * down again. */
  lemma SkippedLines(s: Ctl, token: GenToken, needsTail: bool)
    ensures s.mode !in {NextCondition, CycleJump, CaseJump} ==> Judge(s.mode, token, needsTail).None?
    ensures var j := Judge(s.mode, token, needsTail);
      j.Some? ==>
        Dispatch(s, j.value) == Some(if j.value.code == CodeHeadPlaceholder
                                     then s.(nestHeadCount := s.nestHeadCount + 1) else s)
    ensures var j := Judge(s.mode, token, needsTail);
      j.Some? && j.value.code == CodeHeadPlaceholder ==>
        Dispatch(s.(nestHeadCount := s.nestHeadCount + 1), Combo(StrEmpty, CodeTailSign, StrEmpty)) == Some(s)
  {
  }

  /** Inside a head counted in skipped code, `elif`, `else` and `end` only
    * move the counter. */
  lemma NestedOnlyCounts(s: Ctl, msg: Message)
    requires s.nestHeadCount > 0
    requires msg.code == CodeConditionBranch || msg.code == CodeConditionLeaf || msg.code == CodeTailSign
    ensures Dispatch(s, msg)
         == Some(s.(nestHeadCount := if msg.code == CodeTailSign then s.nestHeadCount - 1 else s.nestHeadCount))
  {
  }

  /** The scopes after `InitGlobalObject`: optionally one more, and
    * `__name__` bound in the innermost to the quoted module name, or to
    * `__main__` for the main script. `None` is a binding with no scope. */
  function NamedScopes(scopes: seq<Scope>, createContainer: bool, name: string, isMain: bool): Option<seq<Scope>>
  {
    var base := if createContainer then scopes + [map[]] else scopes;
    if base == [] then None
    else Some(SetLast(base, Last(base)["__name__" := TextObject("'" + (if isMain then "__main__" else name) + "'", TString)]))
  }

  /** A lookup of `__name__` then finds the module name, and every other
    * binding and every outer scope is kept. */
  lemma NamedScopesBind(scopes: seq<Scope>, createContainer: bool, name: string, isMain: bool)
    requires createContainer || scopes != []
    ensures var r := NamedScopes(scopes, createContainer, name, isMain);
      && r.Some?
      && FindObject(r.value, "__name__") == Some(TextObject("'" + (if isMain then "__main__" else name) + "'", TString))
      && |r.value| == |scopes| + (if createContainer then 1 else 0)
      && (forall i :: 0 <= i < |r.value| - 1 ==> r.value[i] == scopes[i])
      && (createContainer ==> Last(r.value).Keys == {"__name__"})
      && (!createContainer ==>
            forall x :: x != "__name__" && x in Last(scopes) ==> x in Last(r.value) && Last(r.value)[x] == Last(scopes)[x])
  {
  }

  /** What the main loop of `Run` runs on: the lines, what executing line
    * `i` in control state `s` gives (`exec(i, s)`: its result and the
    * scopes it leaves), the class of tokens that open a block, and the
    * switch on result codes. */
  datatype Env = Env(storage: seq<Meta>, exec: (SizeT, Ctl) -> LineRun, needsTail: GenToken -> bool,
                     dispatch: (Ctl, Message) -> Option<Ctl>)

  /** What `Run` takes for the line at `s.current`: the skip result, with
    * the scopes untouched, when the mode passes over it, otherwise what
    * executing it gives. */
  function LineResult(s: Ctl, env: Env): LineRun
    requires s.current < |env.storage|
  {
    var token := env.storage[s.current].token;
    match Judge(s.mode, token, env.needsTail(token))
    case Some(m) => LineRun(m, s.scopes)
    case None => env.exec(s.current, s)
  }

  /** What one line of the main loop does: after the line has left its
    * scopes, stop on a fatal or stop result, report a pop on an empty
    * stack, or move to the next state and line. */
  datatype StepResult = Stopped(result: Message, state: Ctl) | Undefined(result: Message, state: Ctl) | Next(result: Message, state: Ctl)

  function Advance(s: Ctl, env: Env): StepResult
    requires s.current < |env.storage|
  {
    var run := LineResult(s, env);
    var u := s.(scopes := run.scopes);
    var r := run.result;
    if r.value == StrFatalError || r.value == StrStopSign then Stopped(r, u)
    else match env.dispatch(u, r)
      case None => Undefined(r, u)
      case Some(t) => Next(r, t.(current := Inc(t.current)))
  }

  /** Where the main loop of `Run` ends: the state, the last result, the
    * number of lines dispatched and whether a stack was popped empty. */
  datatype Outcome = Outcome(state: Ctl, result: Message, steps: nat, undefined: bool)

  /** The main loop of `Run` from `s`, `result` being the last result, for
    * at most `fuel` lines. */
  function Iterate(s: Ctl, result: Message, env: Env, fuel: nat): Outcome
    decreases fuel
  {
    if fuel == 0 || s.current >= |env.storage| || !s.health then Outcome(s, result, 0, false)
    else match Advance(s, env)
      case Stopped(r, t) => Outcome(t, r, 0, false)
      case Undefined(r, t) => Outcome(t, r, 0, true)
      case Next(r, t) => Shift(Iterate(t, r, env, fuel - 1), 1)
  }

  /** One turn of the main loop, unfolded. */
  lemma IterateUnfolds(s: Ctl, result: Message, env: Env, fuel: nat)
    requires fuel > 0 && s.current < |env.storage| && s.health
    ensures var a := Advance(s, env);
      Iterate(s, result, env, fuel)
      == match a
         case Stopped(r, t) => Outcome(t, r, 0, false)
         case Undefined(r, t) => Outcome(t, r, 0, true)
         case Next(r, t) => Shift(Iterate(t, r, env, fuel - 1), 1)
  {
  }

  /** `full`, a run of at most `fuel` lines, is after `n` lines in state
    * `s` with last result `result`. */
  predicate Resumes(full: Outcome, s: Ctl, result: Message, env: Env, fuel: nat, n: nat)
  {
    n <= fuel && full == Shift(Iterate(s, result, env, fuel - n), n)
  }

  /** The main loop does nothing once the lines, the health or the fuel
    * run out. */
  lemma ResumesDone(full: Outcome, s: Ctl, result: Message, env: Env, fuel: nat, n: nat)
    requires Resumes(full, s, result, env, fuel, n)
    requires n == fuel || s.current >= |env.storage| || !s.health
    ensures full == Outcome(s, result, n, false)
  {
  }

  /** An outcome with `n` more lines counted. */
  function Shift(o: Outcome, n: nat): Outcome
  {
    o.(steps := o.steps + n)
  }

  /** The loop runs past the last line unless the machine turns unhealthy,
    * a line reports a fatal error or a stop, a stack is popped empty, or
    * the fuel runs out; it dispatches at most `fuel` lines. */
  lemma {:induction false} IterateStops(s: Ctl, result: Message, env: Env, fuel: nat)
    ensures var o := Iterate(s, result, env, fuel);
      && o.steps <= fuel
      && (o.steps < fuel && !o.undefined ==>
            o.state.current >= |env.storage| || !o.state.health
            || o.result.value == StrFatalError || o.result.value == StrStopSign)
    decreases fuel
  {
    if fuel > 0 && s.current < |env.storage| && s.health {
      match Advance(s, env)
      case Next(r, t) => IterateStops(t, r, env, fuel - 1);
      case _ =>
    }
  }

  /** The state of a fresh control block over the given scopes. */
  function Start(scopes: seq<Scope>): Ctl
  {
    Ctl(Normal, [], [], [], [], 0, 0, false, false, true, scopes)
  }

  // ---------------------------------------------------------------------
  // The machine

  /** `MachCtlBlk`: the per-run control block. */
  class ControlBlock {
    var mode: Mode
    var modeStack: seq<Mode>
    var conditions: seq<bool>
    var cycleNest: seq<SizeT>
    var cycleTail: seq<SizeT>
    var current: SizeT
    var nestHeadCount: nat
    var defStart: nat
    var sContinue: bool
    var sBreak: bool
    var lastIndex: bool
    var tailRecursion: bool
    var tailCall: bool

    constructor ()
      ensures mode == Normal && modeStack == [] && conditions == [] && cycleNest == [] && cycleTail == []
    {
      mode, modeStack, conditions, cycleNest, cycleTail := Normal, [], [], [], [];
      current, nestHeadCount, defStart := 0, 0, 0;
      sContinue, sBreak, lastIndex, tailRecursion, tailCall := false, false, false, false, false;
    }
  }

  /** The part of a `Machine` the control transitions use: its health flag,
    * its lines and the stack of scopes they run in. */
  class Machine {
    var health: bool
    var storage: seq<Meta>
    var scopes: seq<Scope>
    var isMain: bool

    constructor (storage: seq<Meta>, isMain: bool)
      ensures this.storage == storage && this.isMain == isMain && health && scopes == []
    {
      this.storage, this.isMain := storage, isMain;
      health, scopes := true, [];
    }

    function State(blk: ControlBlock): Ctl
      reads this, blk
    {
      Ctl(blk.mode, blk.modeStack, blk.conditions, blk.cycleNest, blk.cycleTail, blk.current,
          blk.nestHeadCount, blk.sContinue, blk.sBreak, health, scopes)
    }

    method SetState(blk: ControlBlock, s: Ctl)
      modifies this, blk
      ensures State(blk) == s && storage == old(storage) && isMain == old(isMain)
      ensures blk.defStart == old(blk.defStart) && blk.lastIndex == old(blk.lastIndex)
      ensures blk.tailRecursion == old(blk.tailRecursion) && blk.tailCall == old(blk.tailCall)
    {
      blk.mode, blk.modeStack, blk.conditions := s.mode, s.modeStack, s.conditions;
      blk.cycleNest, blk.cycleTail, blk.current := s.cycleNest, s.cycleTail, s.current;
      blk.nestHeadCount, blk.sContinue, blk.sBreak := s.nestHeadCount, s.sContinue, s.sBreak;
      health, scopes := s.health, s.scopes;
    }

    method CaseHead(blk: ControlBlock)
      modifies this, blk
      ensures State(blk) == OpenCase(old(State(blk)))
    {
      scopes := scopes + [map[]];
      blk.modeStack := blk.modeStack + [blk.mode];
      blk.mode := CaseJump;
      blk.conditions := blk.conditions + [false];
    }

    method WhenHead(value: bool, blk: ControlBlock)
      modifies blk
      ensures State(blk) == When(old(State(blk)), value)
    {
      if blk.conditions != [] {
        if blk.mode == Case && Last(blk.conditions) {
          blk.mode := CaseJump;
        } else if value && !Last(blk.conditions) {
          blk.mode := Case;
          blk.conditions := SetLast(blk.conditions, true);
        }
      }
    }

    method ConditionRoot(value: bool, blk: ControlBlock)
      modifies this, blk
      ensures State(blk) == Root(old(State(blk)), value)
    {
      blk.modeStack := blk.modeStack + [blk.mode];
      scopes := scopes + [map[]];
      if value {
        blk.mode := Condition;
        blk.conditions := blk.conditions + [true];
      } else {
        blk.mode := NextCondition;
        blk.conditions := blk.conditions + [false];
      }
    }

    method ConditionBranch(value: bool, blk: ControlBlock)
      modifies this, blk
      ensures State(blk) == Branch(old(State(blk)), value)
    {
      if blk.conditions != [] {
        if !Last(blk.conditions) && blk.mode == NextCondition && value {
          scopes := scopes + [map[]];
          blk.mode := Condition;
          blk.conditions := SetLast(blk.conditions, true);
        } else if Last(blk.conditions) && blk.mode == Condition {
          blk.mode := NextCondition;
        }
      } else {
        health := false;
      }
    }

    method ConditionLeaf(blk: ControlBlock)
      modifies this, blk
      ensures State(blk) == Leaf(old(State(blk)))
    {
      if blk.conditions != [] {
        if Last(blk.conditions) {
          if blk.mode == Condition || blk.mode == NextCondition {
            blk.mode := NextCondition;
          } else if blk.mode == Case || blk.mode == CaseJump {
            blk.mode := CaseJump;
          }
        } else {
          scopes := scopes + [map[]];
          blk.conditions := SetLast(blk.conditions, true);
          if blk.mode == NextCondition {
            blk.mode := Condition;
          } else if blk.mode == CaseJump {
            blk.mode := Case;
          }
        }
      } else {
        health := false;
      }
    }

    method HeadSign(value: bool, blk: ControlBlock)
      modifies this, blk
      ensures State(blk) == Head(old(State(blk)), value)
    {
      var head := Dec(blk.current);
      if blk.cycleNest == [] || Last(blk.cycleNest) != head {
        blk.modeStack := blk.modeStack + [blk.mode];
        scopes := scopes + [map[]];
      }
      if value {
        blk.mode := Cycle;
        if blk.cycleNest == [] || Last(blk.cycleNest) != head {
          blk.cycleNest := blk.cycleNest + [head];
        }
      } else {
        blk.mode := CycleJump;
        if blk.cycleTail != [] {
          blk.current := Last(blk.cycleTail);
        }
      }
    }

    method TailSign(blk: ControlBlock)
      requires Tail(State(blk)).Some?
      modifies this, blk
      ensures State(blk) == Tail(old(State(blk))).value
    {
      if blk.mode == Condition || blk.mode == NextCondition {
        CloseBlockSign(blk);
      } else if blk.mode == Cycle {
        RewindLoopSign(blk);
      } else if blk.mode == CycleJump {
        if blk.sContinue {
          ContinueLoopSign(blk);
        } else {
          LeaveLoopSign(blk);
        }
      } else if blk.mode == Case || blk.mode == CaseJump {
        CloseBlockSign(blk);
      }
    }

    method CloseBlockSign(blk: ControlBlock)
      requires CloseBlock(State(blk)).Some?
      modifies this, blk
      ensures State(blk) == CloseBlock(old(State(blk))).value
    {
      blk.conditions := Pop(blk.conditions);
      blk.mode := Last(blk.modeStack);
      blk.modeStack := Pop(blk.modeStack);
      scopes := Pop(scopes);
    }

    method RewindLoopSign(blk: ControlBlock)
      requires RewindLoop(State(blk)).Some?
      modifies this, blk
      ensures State(blk) == RewindLoop(old(State(blk))).value
    {
      blk.cycleTail := RecordTail(blk.cycleTail, Dec(blk.current));
      blk.current := Last(blk.cycleNest);
      scopes := ClearTop(scopes);
    }

    method ContinueLoopSign(blk: ControlBlock)
      requires ContinueLoop(State(blk)).Some?
      modifies this, blk
      ensures State(blk) == ContinueLoop(old(State(blk))).value
    {
      blk.cycleTail := RecordTail(blk.cycleTail, Dec(blk.current));
      blk.current := Last(blk.cycleNest);
      blk.mode := Cycle;
      blk.modeStack := SetLast(blk.modeStack, blk.mode);
      blk.sContinue := false;
      scopes := ClearTop(scopes);
    }

    method LeaveLoopSign(blk: ControlBlock)
      requires LeaveLoop(State(blk)).Some?
      modifies this, blk
      ensures State(blk) == LeaveLoop(old(State(blk))).value
    {
      blk.sBreak := false;
      blk.mode := Last(blk.modeStack);
      blk.modeStack := Pop(blk.modeStack);
      if blk.cycleNest != [] {
        blk.cycleNest := Pop(blk.cycleNest);
      }
      if blk.cycleTail != [] {
        blk.cycleTail := Pop(blk.cycleTail);
      }
      scopes := Pop(scopes);
    }

    /** The unwinding loop of `Continue` and `Break`. */
    method UnwindModes(blk: ControlBlock) returns (undefined: bool)
      modifies blk
      ensures undefined <==> Unwind(old(State(blk))).None?
      ensures !undefined ==> State(blk) == Unwind(old(State(blk))).value
    {
      while blk.modeStack != [] && blk.mode != Cycle
        invariant Unwind(State(blk)) == Unwind(old(State(blk)))
        decreases |blk.modeStack|
      {
        if blk.mode == Condition {
          if blk.conditions == [] {
            return true;
          }
          blk.conditions := Pop(blk.conditions);
          blk.nestHeadCount := blk.nestHeadCount + 1;
        }
        blk.mode := Last(blk.modeStack);
        blk.modeStack := Pop(blk.modeStack);
      }
      return false;
    }

    method Continue(blk: ControlBlock) returns (undefined: bool)
      modifies blk
      ensures undefined <==> ContinueSpec(old(State(blk))).None?
      ensures !undefined ==> State(blk) == ContinueSpec(old(State(blk))).value
    {
      undefined := UnwindModes(blk);
      if !undefined {
        blk.mode := CycleJump;
        blk.sContinue := true;
      }
    }

    method Break(blk: ControlBlock) returns (undefined: bool)
      modifies blk
      ensures undefined <==> BreakSpec(old(State(blk))).None?
      ensures !undefined ==> State(blk) == BreakSpec(old(State(blk))).value
    {
      undefined := UnwindModes(blk);
      if !undefined && blk.mode == Cycle {
        blk.mode := CycleJump;
        blk.sBreak := true;
      }
    }

    /** `ResetBlock`: the start state of a run. */
    method ResetBlock(blk: ControlBlock)
      modifies blk
      ensures blk.mode == Normal && blk.nestHeadCount == 0 && blk.current == 0 && blk.defStart == 0
      ensures !blk.sContinue && !blk.sBreak && !blk.lastIndex && !blk.tailRecursion && !blk.tailCall
      ensures blk.modeStack == old(blk.modeStack) && blk.conditions == old(blk.conditions)
      ensures blk.cycleNest == old(blk.cycleNest) && blk.cycleTail == old(blk.cycleTail)
    {
      blk.mode, blk.nestHeadCount, blk.current, blk.defStart := Normal, 0, 0, 0;
      blk.sContinue, blk.sBreak, blk.lastIndex := false, false, false;
      blk.tailRecursion, blk.tailCall := false, false;
    }

    /** `PreProcessing`: the first pass records each top-level `def ... end`
      * range and the functions made of them, the second pass keeps the
      * lines outside those ranges. `header` gives the name and parameters
      * the processing of a `def` line yields. `None` where the source reads
      * what it never set (an `end` closing nothing). */
    method PreProcessing(header: Meta -> seq<string>) returns (scan: Option<DefScan>)
      modifies this
      ensures scan == Extract(old(storage), health, header)
      ensures storage == if scan.Some? then Kept(old(storage), RangeMap(scan.value.ranges), 0) else old(storage)
      ensures health == old(health) && scopes == old(scopes) && isMain == old(isMain)
    {
      var sc := InitScan();
      var skipped: map<nat, nat> := map[];
      var idx: nat := 0;
      while health && idx < |storage| && sc.fatal.None?
        invariant unchanged(this)
        invariant idx <= |storage| && Fits(sc, idx) && skipped == RangeMap(sc.ranges)
        invariant Extract(storage, health, header) == if health then ScanDefs(storage, header, idx, sc) else Some(sc)
        decreases |storage| - idx
      {
        var next;
        next, skipped := ScanLine(storage, header, idx, sc, skipped);
        if next.None? {
          return None;
        }
        sc := next.value;
        idx := idx + 1;
      }
      scan := Some(sc);
      storage := RemoveRanges(storage, skipped);
    }

    /** `InitGlobalObject`. */
    method InitGlobalObject(createContainer: bool, name: string) returns (undefined: bool)
      modifies this
      ensures var r := NamedScopes(old(scopes), createContainer, name, isMain);
        && (undefined <==> r.None?)
        && (!undefined ==> scopes == r.value)
      ensures health == old(health) && storage == old(storage) && isMain == old(isMain)
    {
      if createContainer {
        scopes := scopes + [map[]];
      }
      if scopes == [] {
        return true;
      }
      var moduleName := if isMain then "__main__" else name;
      scopes := SetLast(scopes, Last(scopes)["__name__" := TextObject("'" + moduleName + "'", TString)]);
      return false;
    }

    /** The main loop of `Run` on the control block `blk`. Executing line
      * `i` in control state `s` gives `exec(i, s)`; `needsTail` classes
      * the tokens that open a block. */
    method MainLoop(blk: ControlBlock, env: Env, fuel: nat)
      returns (result: Message, steps: nat, undefined: bool)
      requires env.storage == storage
      modifies this, blk
      ensures storage == old(storage) && isMain == old(isMain)
      ensures var o := Iterate(old(State(blk)), NewMessage(), env, fuel);
        result == o.result && steps == o.steps && undefined == o.undefined && State(blk) == o.state
    {
      result, steps, undefined := NewMessage(), 0, false;
      ghost var full := Iterate(State(blk), result, env, fuel);
      while blk.current < |storage| && health && steps < fuel
        invariant storage == env.storage && isMain == old(isMain) && steps <= fuel
        invariant Resumes(full, State(blk), result, env, fuel, steps)
        decreases fuel - steps
      {
        var step := Turn(blk, env, fuel, result, full, steps);
        result := step.result;
        if !step.Next? {
          undefined := step.Undefined?;
          return;
        }
        steps := steps + 1;
      }
      ResumesDone(full, State(blk), result, env, fuel, steps);
    }

    /** One turn of the main loop, related to `Iterate`: the run `full`,
      * resumed after `n` lines, goes on from the new state. */
    method Turn(blk: ControlBlock, env: Env, fuel: nat, result0: Message, ghost full: Outcome, ghost n: nat)
      returns (step: StepResult)
      requires blk.current < |env.storage| && env.storage == storage && health && n < fuel
      requires Resumes(full, State(blk), result0, env, fuel, n)
      modifies this, blk
      ensures storage == old(storage) && isMain == old(isMain)
      ensures step.Next? ==> Resumes(full, State(blk), step.result, env, fuel, n + 1)
      ensures !step.Next? ==> full == Outcome(State(blk), step.result, n, step.Undefined?)
    {
      IterateUnfolds(State(blk), result0, env, fuel - n);
      step := RunLine(blk, env);
    }

    /** One line of the main loop: its result is judged or executed and
      * dispatched, and the line counter advances. */
    method RunLine(blk: ControlBlock, env: Env) returns (step: StepResult)
      requires blk.current < |env.storage| && env.storage == storage
      modifies this, blk
      ensures storage == old(storage) && isMain == old(isMain)
      ensures step == Advance(old(State(blk)), env)
      ensures State(blk) == step.state
    {
      blk.lastIndex := blk.current == |storage| - 1;
      step := Advance(State(blk), env);
      SetState(blk, step.state);
    }

    /** `Run`: a fresh control block, `InitGlobalObject`, the main loop,
      * and the scope `InitGlobalObject` opened closed again at the end.
      * `undefined` reports a pop or top on an empty stack. */
    method Run(createContainer: bool, name: string, exec: (SizeT, Ctl) -> LineRun,
               needsTail: GenToken -> bool, fuel: nat)
      returns (result: Message, steps: nat, undefined: bool)
      modifies this
      ensures storage == old(storage) && isMain == old(isMain)
      ensures old(storage) == [] ==> result == NewMessage() && steps == 0 && !undefined && health && scopes == old(scopes)
      ensures old(storage) != [] ==>
        match NamedScopes(old(scopes), createContainer, name, isMain)
        case None => undefined && steps == 0
        case Some(named) =>
          var o := Iterate(Start(named), NewMessage(), Env(storage, exec, needsTail, Dispatch), fuel);
          && result == o.result && steps == o.steps && health == o.state.health
          && (o.undefined ==> undefined && scopes == o.state.scopes)
          && (!o.undefined ==>
                && (undefined <==> createContainer && o.state.scopes == [])
                && (!undefined ==> scopes == if createContainer then Pop(o.state.scopes) else o.state.scopes))
    {
      var blk := new ControlBlock();
      ResetBlock(blk);
      health := true;
      result, steps, undefined := NewMessage(), 0, false;
      if storage == [] {
        return;
      }
      undefined := InitGlobalObject(createContainer, name);
      if undefined {
        return;
      }
      assert State(blk) == Start(scopes);
      result, steps, undefined := MainLoop(blk, Env(storage, exec, needsTail, Dispatch), fuel);
      if undefined {
        return;
      }
      if createContainer {
        if scopes == [] {
          undefined := true;
          return;
        }
        scopes := Pop(scopes);
      }
    }
  }

  // ---------------------------------------------------------------------
  // Argument binding

  /** The bindings the argument loop of `MetaProcessing` inserts for an
    * entry with parameter names `args`, argument mode `mode`, method flag
    * `isMethod` and declared parameter count `parmSize`, given `parmCount`
    * arguments; `FromArg(i)` is the object made from argument `i`. `None`
    * is an index outside the argument or parameter list, or `back()` of an
    * empty one. */
  method BindArguments(args: seq<string>, mode: ArgumentMode, isMethod: bool, parmSize: nat, parmCount: nat)
    returns (r: Option<Bindings>)
    ensures mode == AutoSize ==>
      var fixed := parmSize - 1;
      var va := if isMethod then parmCount - 1 else parmCount;
      (r.None? <==> parmSize == 0 || fixed > |args| || fixed > parmCount || args == [] || (isMethod && parmCount == 0))
      && (r.Some? ==>
            var k := if va > fixed then va - fixed else 0;
            && |r.value| == fixed + k + 1 + (if isMethod then 1 else 0)
            && (forall i :: 0 <= i < fixed ==> r.value[i] == (args[i], FromArg(i)))
            && (forall j :: 0 <= j < k ==> r.value[fixed + j] == (Last(args) + NatToString(j), FromArg(fixed + j)))
            && r.value[fixed + k] == (StrVaSize, Count(k))
            && (isMethod ==> Last(r.value) == (StrObject, FromArg(parmCount - 1))))
    ensures mode != AutoSize ==>
      (r.None? <==> (mode == NormalParm && |args| > parmCount) || (isMethod && parmCount == 0))
      && (r.Some? ==>
            var n := if mode == AutoFill && parmCount < |args| then parmCount else |args|;
            && |r.value| == n + (if isMethod then 1 else 0)
            && (forall i :: 0 <= i < n ==> r.value[i] == (args[i], FromArg(i)))
            && (isMethod ==> Last(r.value) == (StrObject, FromArg(parmCount - 1))))
  {
    if mode == AutoSize {
      r := BindVariadic(args, isMethod, parmSize, parmCount);
    } else {
      r := BindFixed(args, mode, parmCount);
    }
    if r.Some? && isMethod {
      if parmCount == 0 {
        return None;
      }
      r := Some(r.value + [(StrObject, FromArg(parmCount - 1))]);
    }
  }

  /** The variadic branch: the first `parmSize - 1` parameters positionally,
    * the remaining non-receiver arguments under the last parameter name
    * suffixed with their number, then their count. */
  method BindVariadic(args: seq<string>, isMethod: bool, parmSize: nat, parmCount: nat)
    returns (r: Option<Bindings>)
    ensures var fixed := parmSize - 1;
      var va := if isMethod then parmCount - 1 else parmCount;
      (r.None? <==> parmSize == 0 || fixed > |args| || fixed > parmCount || args == [] || (isMethod && parmCount == 0))
      && (r.Some? ==>
            var k := if va > fixed then va - fixed else 0;
            && |r.value| == fixed + k + 1
            && (forall i :: 0 <= i < fixed ==> r.value[i] == (args[i], FromArg(i)))
            && (forall j :: 0 <= j < k ==> r.value[fixed + j] == (Last(args) + NatToString(j), FromArg(fixed + j)))
            && r.value[fixed + k] == (StrVaSize, Count(k)))
  {
    if parmSize == 0 || parmSize - 1 > |args| || parmSize - 1 > parmCount {
      return None;
    }
    var bindings: Bindings := [];
    var sub := 0;
    while sub < parmSize - 1
      invariant sub <= parmSize - 1 && |bindings| == sub
      invariant forall i :: 0 <= i < sub ==> bindings[i] == (args[i], FromArg(i))
    {
      bindings := bindings + [(args[sub], FromArg(sub))];
      sub := sub + 1;
    }
    if args == [] || (isMethod && parmCount == 0) {
      return None;
    }
    var head := Last(args);
    var vaSize := if isMethod then parmCount - 1 else parmCount;
    var count := 0;
    while sub < vaSize
      invariant parmSize - 1 <= sub && count == sub - (parmSize - 1)
      invariant sub <= (if vaSize > parmSize - 1 then vaSize else parmSize - 1)
      invariant |bindings| == sub
      invariant forall i :: 0 <= i < parmSize - 1 ==> bindings[i] == (args[i], FromArg(i))
      invariant forall j :: 0 <= j < count ==> bindings[parmSize - 1 + j] == (head + NatToString(j), FromArg(parmSize - 1 + j))
    {
      bindings := bindings + [(head + NatToString(count), FromArg(sub))];
      count := count + 1;
      sub := sub + 1;
    }
    return Some(bindings + [(StrVaSize, Count(count))]);
  }

  /** The other modes: parameter `i` takes argument `i`; in auto-fill mode
    * binding stops when the arguments run out. */
  method BindFixed(args: seq<string>, mode: ArgumentMode, parmCount: nat) returns (r: Option<Bindings>)
    requires mode != AutoSize
    ensures r.None? <==> mode == NormalParm && |args| > parmCount
    ensures r.Some? ==>
      var n := if mode == AutoFill && parmCount < |args| then parmCount else |args|;
      && |r.value| == n
      && (forall i :: 0 <= i < n ==> r.value[i] == (args[i], FromArg(i)))
  {
    var bindings: Bindings := [];
    var sub := 0;
    while sub < |args|
      invariant sub <= |args| && |bindings| == sub && sub <= parmCount
      invariant forall i :: 0 <= i < sub ==> bindings[i] == (args[i], FromArg(i))
    {
      if sub >= parmCount && mode == AutoFill {
        break;
      }
      if sub >= parmCount {
        return None;
      }
      bindings := bindings + [(args[sub], FromArg(sub))];
      sub := sub + 1;
    }
    return Some(bindings);
  }

  /** The map `Calling` hands to the activity: parameter `names[i]` bound to
    * `objects[i]`, the first occurrence of a repeated name winning. */
  function CallingMap(names: seq<string>, objects: seq<Object>): (m: map<string, Object>)
    requires |objects| >= |names|
    ensures m.Keys == set i | 0 <= i < |names| :: names[i]
  {
    if names == [] then map[]
    else MapInsert(CallingMap(Pop(names), objects), Last(names), objects[|names| - 1])
  }

  /** Each name is bound to the object at its first position. */
  lemma {:induction false} CallingFirstWins(names: seq<string>, objects: seq<Object>, i: nat)
    requires |objects| >= |names| && i < |names|
    requires forall j :: 0 <= j < i ==> names[j] != names[i]
    ensures CallingMap(names, objects)[names[i]] == objects[i]
  {
    if i < |names| - 1 {
      CallingFirstWins(Pop(names), objects, i);
    } else {
      assert names[i] !in CallingMap(Pop(names), objects);
    }
  }
}
