// The third interpreter generation (`machine_kisaragi.cc`) runs an
// instruction stream with one `MachineWorker` per call. This module holds a
// worker's state and the transitions its control commands make on the top
// worker and on the stack of scopes: if, elif, while, else, case, when and
// the two kinds of `end`.

module KisaragiWorker {
  import opened Common
  import opened Objects
  import Parser

  // Spellings of the header markers and of the case-sample name. The header
  // that defines them is not part of this model; the model relies only on
  // their being distinct.
  const StrOptional: string := "optional"
  const StrVariable: string := "variable"
  const StrCase: string := "__case"

  /** The errors a worker records with `MakeError`. */
  datatype KError =
    | TooManyArguments | UnexpectedElif | UnexpectedElse | EmptyArgs | EmptyCase | NonStringCase
    | UnexpectedWhen | NonStringWhen | ExpectEnd
    | VariableTwice | VariableNotLast | OptionalAfterNormal | OptionalAndVariable
    | TooManyCallArguments | RequiredCount(params: nat, args: nat) | RequiredMinimum(min: nat, args: nat)
    | TooFewArguments

  /** The text each error carries. */
  function ErrorText(e: KError): string
  {
    match e
    case TooManyArguments => "Too many arguments."
    case UnexpectedElif => "Unexpected Elif."
    case UnexpectedElse => "Unexpected Else."
    case EmptyArgs => "Empty argument list."
    case EmptyCase => "Empty argument list"
    case NonStringCase => "Non-string object is not supported by case"
    case UnexpectedWhen => "Unexpected 'when'"
    case NonStringWhen => "Non-string object is not supported by when"
    case ExpectEnd => "Expect 'end'"
    case VariableTwice => "Variable parameter can be defined only once."
    case VariableNotLast => "Variable parameter must be last one."
    case OptionalAfterNormal => "Optional parameter must be defined after normal parameters."
    case OptionalAndVariable => "Variable and optional parameter can't be defined at same time."
    case TooManyCallArguments => "Too many arguments"
    case RequiredCount(p, a) =>
      "Required argument count is " + NatToString(p) + ", but provided argument count is " + NatToString(a) + "."
    case RequiredMinimum(m, a) =>
      "Required minimum argument count is" + NatToString(m) + ", but provided argument count is" + NatToString(a)
    case TooFewArguments => "Too few arguments."
  }

  /** A `MachineWorker`: the mode and its saved modes, the condition stack,
    * the loop head and tail stacks, the instruction index and the segment
    * information, the skip counter, the loop flags, the function header
    * being caught, the stack of returned objects and the last error. */
  datatype Worker = Worker(
    mode: Mode,
    modeStack: seq<Mode>,
    conditions: seq<bool>,
    loopHead: seq<SizeT>,
    loopTail: seq<SizeT>,
    idx: SizeT,
    logicIdx: SizeT,
    originIdx: SizeT,
    lastCommand: IrToken,
    skippingCount: nat,
    activatedContinue: bool,
    activatedBreak: bool,
    fnStrings: seq<string>,
    fnIdx: SizeT,
    returnStack: seq<Object>,
    error: Option<KError>)

  /** `MachineWorker()`. Its header is not part of this model; the worker
    * starts in `Normal` with empty stacks, zero indices and no error. */
  function NewWorker(): Worker
  {
    Worker(Normal, [], [], [], [], 0, 0, 0, IrOther(0), 0, false, false, [], 0, [], None)
  }

  /** What the control commands act on: the top worker and the scopes. */
  datatype Frame = Frame(worker: Worker, scopes: seq<Scope>)

  function MakeError(w: Worker, e: KError): Worker { w.(error := Some(e)) }

  /** `SwitchToMode`: saves the current mode and enters `m`. */
  function SwitchToMode(w: Worker, m: Mode): Worker
  {
    w.(modeStack := w.modeStack + [w.mode], mode := m)
  }

  /** `GoLastMode`: returns to the saved mode; `None` when there is none,
    * which the source leaves undefined. */
  function GoLastMode(w: Worker): Option<Worker>
  {
    if w.modeStack == [] then None else Some(w.(mode := Last(w.modeStack), modeStack := Pop(w.modeStack)))
  }

  // ---------------------------------------------------------------------
  // Truth value of a condition object

  /** `util::IsString`: a single-quoted literal. */
  predicate IsQuoted(s: string) { |s| >= 2 && s[0] == '\'' && s[|s| - 1] == '\'' }

  /** `ParseString`: a quoted literal loses its quotes, anything else is kept. */
  function ParseString(s: string): string
  {
    if IsQuoted(s) then s[1..|s| - 1] else s
  }

  predicate IsNonZeroDigit(c: char) { '1' <= c <= '9' }

  predicate HasNonZeroDigit(s: string) { exists i :: 0 <= i < |s| && IsNonZeroDigit(s[i]) }

  /** The text a string object holds. */
  function TextOf(o: Object): string
  {
    if o.payload.Text? then o.payload.text else ""
  }

  /** The truth value `CommandIfOrWhile` gives its argument. A raw string
    * reads as the boolean literals, as an integer token (true when some
    * digit is not zero, which is `stol(s) != 0` for a digit string) or as a
    * quoted literal (true when not empty once unquoted), and is false
    * otherwise; any other object is true unless it is the null object.
    * `classify` is the token classifier `util::GetTokenType`. */
  function Truthy(o: Object, classify: string -> TokenType): bool
  {
    if o.typeId == TypeIdRawString then
      var s := TextOf(o);
      if s == Parser.StrTrue then true
      else if s == Parser.StrFalse then false
      else match classify(s)
        case TInteger => HasNonZeroDigit(s)
        case TString => |ParseString(s)| > 0
        case _ => false
    else o.typeId != TypeIdNull
  }

  /** A digit string reads as a non-zero number exactly when one of its
    * digits is not zero. */
  lemma {:induction false} NonZeroDigitValue(s: string)
    requires AllDigits(s)
    ensures DecimalValue(s) != 0 <==> HasNonZeroDigit(s)
  {
    if s != [] {
      var p := s[..|s| - 1];
      NonZeroDigitValue(p);
      if HasNonZeroDigit(p) {
        var i :| 0 <= i < |p| && IsNonZeroDigit(p[i]);
        assert s[i] == p[i];
      }
      if HasNonZeroDigit(s) && !IsNonZeroDigit(s[|s| - 1]) {
        var i :| 0 <= i < |s| && IsNonZeroDigit(s[i]);
        assert p[i] == s[i];
      }
    }
  }

  /** A raw string the classifier calls an integer, written in decimal
    * digits, is true exactly when its value is not zero. */
  lemma TruthyInteger(o: Object, classify: string -> TokenType)
    requires o.typeId == TypeIdRawString && AllDigits(TextOf(o)) && classify(TextOf(o)) == TInteger
    ensures Truthy(o, classify) <==> DecimalValue(TextOf(o)) != 0
  {
    var s := TextOf(o);
    assert !IsDigit(Parser.StrTrue[0]) && !IsDigit(Parser.StrFalse[0]);
    NonZeroDigitValue(s);
  }

  /** A quoted raw string other than the boolean literals, classified as a
    * string, is true exactly when something stands between its quotes. */
  lemma TruthyQuoted(o: Object, classify: string -> TokenType)
    requires o.typeId == TypeIdRawString && IsQuoted(TextOf(o)) && classify(TextOf(o)) == TString
    ensures Truthy(o, classify) <==> |TextOf(o)| > 2
  {
    var s := TextOf(o);
    assert Parser.StrTrue[0] != '\'' && Parser.StrFalse[0] != '\'';
  }

  /** The boolean literals read as themselves, and an object that is not a
    * raw string is true exactly when it is not the null object. */
  lemma TruthyLiterals(o: Object, classify: string -> TokenType)
    ensures o.typeId == TypeIdRawString && TextOf(o) == Parser.StrTrue ==> Truthy(o, classify)
    ensures o.typeId == TypeIdRawString && TextOf(o) == Parser.StrFalse ==> !Truthy(o, classify)
    ensures o.typeId != TypeIdRawString ==> (Truthy(o, classify) <==> o.typeId != TypeIdNull)
  {
  }

  // ---------------------------------------------------------------------
  // if, elif, while

  /** `CommandIfOrWhile` once its argument has been fetched as an object. */
  function IfOrWhile(f: Frame, token: IrToken, args: seq<Object>, classify: string -> TokenType): Frame
  {
    var w := f.worker;
    if |args| != 1 then f.(worker := MakeError(w, TooManyArguments))
    else
      var state := Truthy(args[0], classify);
      match token
      case IrIf =>
        f.(worker := SwitchToMode(w, if state then Condition else NextCondition).(conditions := w.conditions + [state]))
      case IrWhile => WhileHead(f, state)
      case IrElif =>
        if w.conditions == [] then f.(worker := MakeError(w, UnexpectedElif))
        else if !Last(w.conditions) && w.mode == NextCondition then
          f.(worker := w.(mode := Condition, conditions := SetLast(w.conditions, true)))
        else f
      case _ => f
  }

  /** Whether a `while` at the worker's index opens a new loop: the
    * innermost recorded head is not the line before it. */
  predicate OpensLoop(w: Worker)
  {
    w.loopHead == [] || Last(w.loopHead) != Dec(w.idx)
  }

  /** The `while` branch: a new loop opens a scope and records its head;
    * the mode is saved and the loop entered or jumped over, a jump going
    * to the recorded tail when every head has one. */
  function WhileHead(f: Frame, state: bool): Frame
  {
    var w := f.worker;
    var opens := OpensLoop(w);
    var scopes := if opens then f.scopes + [map[]] else f.scopes;
    var head := if opens then w.loopHead + [Dec(w.logicIdx)] else w.loopHead;
    var w1 := SwitchToMode(w.(loopHead := head), if state then Cycle else CycleJump);
    var w2 := if !state && |head| == |w.loopTail| && w.loopTail != [] then w1.(idx := Dec(Last(w.loopTail))) else w1;
    Frame(w2, scopes)
  }

  /** Anything but one argument is an error that changes nothing else; one
    * argument leaves the error as it was. */
  lemma IfOrWhileArity(f: Frame, token: IrToken, args: seq<Object>, classify: string -> TokenType)
    ensures var r := IfOrWhile(f, token, args, classify);
            |args| != 1 ==> r == f.(worker := f.worker.(error := Some(TooManyArguments)))
    ensures var r := IfOrWhile(f, token, args, classify);
            |args| == 1 && (token != IrElif || f.worker.conditions != []) ==> r.worker.error == f.worker.error
  {
  }

  /** An `if` saves the mode, pushes its truth value and enters the branch
    * exactly when the value is true; it opens no scope. */
  lemma IfPushes(f: Frame, a: Object, classify: string -> TokenType)
    ensures var r := IfOrWhile(f, IrIf, [a], classify);
            && r.worker.conditions == f.worker.conditions + [Truthy(a, classify)]
            && r.worker.modeStack == f.worker.modeStack + [f.worker.mode]
            && (r.worker.mode == Condition <==> Truthy(a, classify))
            && (r.worker.mode == NextCondition <==> !Truthy(a, classify))
            && r.scopes == f.scopes
  {
  }

  /** An `elif` does not look at its own value: it enters its branch
    * exactly when no branch was taken and the block is skipping. */
  lemma ElifIgnoresValue(f: Frame, a: Object, b: Object, classify: string -> TokenType)
    requires f.worker.conditions != []
    ensures IfOrWhile(f, IrElif, [a], classify) == IfOrWhile(f, IrElif, [b], classify)
    ensures var r := IfOrWhile(f, IrElif, [a], classify);
            r.worker.mode == Condition && r != f <==> !Last(f.worker.conditions) && f.worker.mode == NextCondition
  {
  }

  // ---------------------------------------------------------------------
  // else, case, when

  /** `CommandElse`: after a taken branch the block skips to its end; with
    * no branch taken the `else` branch runs and the top is marked taken. */
  function Else(f: Frame): Frame
  {
    var w := f.worker;
    if w.conditions == [] then f.(worker := MakeError(w, UnexpectedElse))
    else if Last(w.conditions) then
      match w.mode
      case Condition => f.(worker := w.(mode := NextCondition))
      case NextCondition => f.(worker := w.(mode := NextCondition))
      case Case => f.(worker := w.(mode := CaseJump))
      case CaseJump => f.(worker := w.(mode := CaseJump))
      case _ => f
    else
      var v := w.(conditions := SetLast(w.conditions, true));
      match w.mode
      case NextCondition => f.(worker := v.(mode := Condition))
      case CaseJump => f.(worker := v.(mode := Case))
      case _ => f.(worker := v)
  }

  /** After an `else` the top condition is true, the stacks keep their
    * depth, and the `else` branch runs exactly when no branch ran before. */
  lemma ElseMarksTaken(f: Frame)
    requires f.worker.conditions != []
    requires f.worker.mode in {Condition, NextCondition, Case, CaseJump}
    ensures var r := Else(f).worker;
            && Last(r.conditions) && |r.conditions| == |f.worker.conditions|
            && r.modeStack == f.worker.modeStack && Else(f).scopes == f.scopes
            && (Last(f.worker.conditions) ==> r.mode in {NextCondition, CaseJump})
            && (!Last(f.worker.conditions) && f.worker.mode in {NextCondition, CaseJump} ==> r.mode in {Condition, Case})
  {
  }

  predicate IsStringObject(o: Object)
  {
    o.typeId == TypeIdRawString || o.typeId == TypeIdString
  }

  /** `CommandCase` once its argument has been fetched: a string object
    * opens a scope holding the case sample, saves the mode and waits for a
    * matching `when`. The sample the source builds is a parameter here. */
  function OpenCase(f: Frame, args: seq<Object>, sample: Object): Frame
  {
    var w := f.worker;
    if args == [] then f.(worker := MakeError(w, EmptyCase))
    else if !IsStringObject(args[0]) then f.(worker := MakeError(w, NonStringCase))
    else Frame(SwitchToMode(w, CaseJump).(conditions := w.conditions + [false]), f.scopes + [map[StrCase := sample]])
  }

  /** How the guards of a `when` compare with the case sample: the first
    * guard that is not a string is an error, the first equal one a match. */
  datatype WhenScan = NoMatch | Match | NonString

  function ScanWhen(args: seq<Object>, content: string, i: nat): WhenScan
    decreases |args| - i
  {
    if i >= |args| then NoMatch
    else if !IsStringObject(args[i]) then NonString
    else if TextOf(args[i]) == content then Match
    else ScanWhen(args, content, i + 1)
  }

  /** Guard `k` equals the sample and every guard from `i` up to it is a
    * string. */
  predicate MatchAt(args: seq<Object>, content: string, i: nat, k: nat)
  {
    && i <= k < |args| && IsStringObject(args[k]) && TextOf(args[k]) == content
    && forall j :: i <= j < k ==> IsStringObject(args[j])
  }

  /** Guard `k` is not a string and every guard from `i` up to it is a
    * string that differs from the sample. */
  predicate FailAt(args: seq<Object>, content: string, i: nat, k: nat)
  {
    && i <= k < |args| && !IsStringObject(args[k])
    && forall j :: i <= j < k ==> IsStringObject(args[j]) && TextOf(args[j]) != content
  }

  /** A scan from `i` matches exactly when some later guard equals the
    * sample with only strings before it. */
  lemma {:induction false} ScanWhenMatch(args: seq<Object>, content: string, i: nat)
    requires i <= |args|
    ensures ScanWhen(args, content, i) == Match <==> exists k :: MatchAt(args, content, i, k)
    decreases |args| - i
  {
    if i < |args| {
      if IsStringObject(args[i]) && TextOf(args[i]) == content {
        assert MatchAt(args, content, i, i);
      } else if IsStringObject(args[i]) {
        ScanWhenMatch(args, content, i + 1);
        var next := i + 1;
        if k :| MatchAt(args, content, next, k) {
          assert MatchAt(args, content, i, k);
        }
        if k :| MatchAt(args, content, i, k) {
          assert MatchAt(args, content, next, k);
        }
      } else {
        assert forall k :: !MatchAt(args, content, i, k) by {
          forall k | MatchAt(args, content, i, k)
            ensures k == i
          {
          }
        }
      }
    }
  }

  /** A scan from `i` fails exactly when some later guard is not a string
    * and every guard before it is a string that differs from the sample. */
  lemma {:induction false} ScanWhenFails(args: seq<Object>, content: string, i: nat)
    requires i <= |args|
    ensures ScanWhen(args, content, i) == NonString <==> exists k :: FailAt(args, content, i, k)
    decreases |args| - i
  {
    if i < |args| {
      if !IsStringObject(args[i]) {
        assert FailAt(args, content, i, i);
      } else if TextOf(args[i]) != content {
        ScanWhenFails(args, content, i + 1);
        var next := i + 1;
        if k :| FailAt(args, content, next, k) {
          assert FailAt(args, content, i, k);
        }
        if k :| FailAt(args, content, i, k) {
          assert FailAt(args, content, next, k);
        }
      } else {
        assert forall k :: !FailAt(args, content, i, k) by {
          forall k | FailAt(args, content, i, k)
            ensures k == i
          {
          }
        }
      }
    }
  }

  /** `CommandWhen` once its guards have been fetched. */
  function When(f: Frame, args: seq<Object>): Frame
  {
    var w := f.worker;
    if w.conditions == [] || w.mode !in {Case, CaseJump} then f.(worker := MakeError(w, UnexpectedWhen))
    else if w.mode == Case then f.(worker := w.(mode := CaseJump))
    else if Last(w.conditions) || args == [] then f
    else match FindObject(f.scopes, StrCase)
      case None => f.(worker := MakeError(w, UnexpectedWhen))
      case Some(sample) =>
        if !IsStringObject(sample) then f.(worker := MakeError(w, NonStringWhen))
        else match ScanWhen(args, TextOf(sample), 0)
          case NonString => f.(worker := MakeError(w, NonStringWhen))
          case Match => f.(worker := w.(mode := Case, conditions := SetLast(w.conditions, true)))
          case NoMatch => f
  }

  /** A `when` that meets no error enters its branch exactly when the block
    * is waiting, no branch was taken, and one of its guards equals the case
    * sample with only strings before it. */
  lemma WhenEntersIff(f: Frame, args: seq<Object>)
    requires f.worker.mode in {Case, CaseJump} && f.worker.conditions != []
    ensures When(f, args).worker.mode == Case <==>
              && f.worker.mode == CaseJump && !Last(f.worker.conditions)
              && FindObject(f.scopes, StrCase).Some? && IsStringObject(FindObject(f.scopes, StrCase).value)
              && exists k :: MatchAt(args, TextOf(FindObject(f.scopes, StrCase).value), 0, k)
  {
    if FindObject(f.scopes, StrCase).Some? {
      ScanWhenMatch(args, TextOf(FindObject(f.scopes, StrCase).value), 0);
    }
  }

  /** Once a branch of a case-block was taken no later `when` enters a
    * branch: the top stays true and the block skips to its end. */
  lemma WhenAtMostOne(f: Frame, args: seq<Object>)
    requires f.worker.mode in {Case, CaseJump} && f.worker.conditions != [] && Last(f.worker.conditions)
    ensures When(f, args).worker.conditions == f.worker.conditions
    ensures When(f, args).worker.mode == CaseJump
  {
  }

  // ---------------------------------------------------------------------
  // end

  /** `CommandConditionEnd`: pops the condition, returns to the saved mode
    * and pops a scope. `None` is a pop on an empty stack. */
  function ConditionEnd(f: Frame): Option<Frame>
  {
    var w := f.worker;
    if w.conditions == [] || w.modeStack == [] || f.scopes == [] then None
    else Some(Frame(w.(conditions := Pop(w.conditions), mode := Last(w.modeStack), modeStack := Pop(w.modeStack)),
                    Pop(f.scopes)))
  }

  /** A case-block that opens and ends gives back the state it started
    * from, apart from the error and the other fields it never touches. */
  lemma CaseEndBalanced(f: Frame, a: Object, sample: Object)
    requires IsStringObject(a)
    ensures ConditionEnd(OpenCase(f, [a], sample)) == Some(f)
  {
  }

  /** An `if` opens no scope but its `end` pops one: an if-block closes one
    * scope more than it opened, dropping the enclosing block's scope. */
  lemma IfEndDropsScope(f: Frame, a: Object, classify: string -> TokenType)
    requires f.scopes != []
    ensures var r := ConditionEnd(IfOrWhile(f, IrIf, [a], classify));
            r.Some? && r.value.scopes == Pop(f.scopes)
            && r.value.worker == f.worker
  {
  }

  /** Pushes the tail index unless the innermost tail is the line before
    * the worker's index. */
  function RecordTail(w: Worker): Worker
  {
    if w.loopTail == [] || Last(w.loopTail) != Dec(w.idx) then w.(loopTail := w.loopTail + [Dec(w.logicIdx)]) else w
  }

  /** `CommandLoopEnd`: the end of a running loop body rewinds to the head
    * and empties the loop's scope; the end of a skipped body (not skipped
    * by `continue`) leaves the loop. `None` is a top or pop on an empty
    * stack. */
  function LoopEnd(f: Frame): Option<Frame>
  {
    var w := f.worker;
    if w.mode == Cycle || (w.mode == CycleJump && w.activatedContinue) then
      if w.loopHead == [] || f.scopes == [] then None
      else
        var v := RecordTail(w).(idx := Dec(Last(w.loopHead)));
        Some(Frame(if w.mode == CycleJump then v.(mode := Cycle, activatedContinue := false) else v,
                   SetLast(f.scopes, map[])))
    else if w.mode == CycleJump then
      match GoLastMode(w.(activatedBreak := false))
      case None => None
      case Some(v) =>
        if v.loopHead == [] || f.scopes == [] || (|v.loopHead| == |v.loopTail| && v.loopTail == []) then None
        else if |v.loopHead| == |v.loopTail| then
          Some(Frame(v.(loopHead := Pop(v.loopHead), loopTail := Pop(v.loopTail)), Pop(f.scopes)))
        else Some(Frame(v.(loopHead := Pop(v.loopHead)), Pop(f.scopes)))
    else Some(f)
  }

  /** The end of a running body (or of one skipped by `continue`) goes
    * back to the line before the loop head, keeps the scope depth and
    * empties the loop's scope, and runs the body again. */
  lemma LoopEndRewinds(f: Frame)
    requires f.worker.mode == Cycle || (f.worker.mode == CycleJump && f.worker.activatedContinue)
    requires f.worker.loopHead != [] && f.scopes != []
    ensures var r := LoopEnd(f);
            && r.Some? && r.value.worker.idx == Dec(Last(f.worker.loopHead))
            && r.value.worker.mode == Cycle && (f.worker.mode == CycleJump ==> !r.value.worker.activatedContinue)
            && |r.value.scopes| == |f.scopes| && Last(r.value.scopes) == map[]
            && Pop(r.value.scopes) == Pop(f.scopes)
            && r.value.worker.loopHead == f.worker.loopHead
            && r.value.worker.modeStack == f.worker.modeStack
            && (|| r.value.worker.loopTail == f.worker.loopTail + [Dec(f.worker.logicIdx)]
                || (r.value.worker.loopTail == f.worker.loopTail && Last(f.worker.loopTail) == Dec(f.worker.idx)))
  {
  }

  /** A `while` whose first test is false, followed by its `end`, leaves
    * the loop: the mode, the saved modes, the loop stacks and the scopes
    * are as before the loop. */
  lemma FalseLoopRestores(f: Frame, a: Object, classify: string -> TokenType)
    requires OpensLoop(f.worker) && !Truthy(a, classify)
    requires |f.worker.loopHead| == |f.worker.loopTail| && !f.worker.activatedContinue
    ensures var r := LoopEnd(IfOrWhile(f, IrWhile, [a], classify));
            && r.Some? && r.value.scopes == f.scopes
            && r.value.worker.mode == f.worker.mode && r.value.worker.modeStack == f.worker.modeStack
            && r.value.worker.loopHead == f.worker.loopHead && r.value.worker.loopTail == f.worker.loopTail
            && r.value.worker.conditions == f.worker.conditions && !r.value.worker.activatedBreak
  {
    var w := f.worker;
    var g := IfOrWhile(f, IrWhile, [a], classify);
    assert g == WhileHead(f, false);
    assert g.worker.loopHead == w.loopHead + [Dec(w.logicIdx)] && g.worker.loopTail == w.loopTail;
    assert g.scopes == f.scopes + [map[]];
    assert g.worker.mode == CycleJump && g.worker.modeStack == w.modeStack + [w.mode];
    assert !g.worker.activatedContinue && g.worker.conditions == w.conditions;
  }

  /** Every `while` saves the mode, also when it runs again at the top of
    * an iteration, while the end of a running body restores none: each
    * further iteration leaves one more saved mode behind. */
  lemma IterationSavesMode(f: Frame, a: Object, classify: string -> TokenType)
    requires IfOrWhile(f, IrWhile, [a], classify).worker.mode == Cycle
    requires f.scopes != []
    ensures var r := LoopEnd(IfOrWhile(f, IrWhile, [a], classify));
            r.Some? && r.value.worker.modeStack == f.worker.modeStack + [f.worker.mode]
  {
  }

  /** An `end` of a condition or case block pops exactly one condition, one
    * saved mode and one scope. */
  lemma ConditionEndPops(f: Frame)
    requires f.worker.conditions != [] && f.worker.modeStack != [] && f.scopes != []
    ensures var r := ConditionEnd(f);
            && r.Some? && |r.value.worker.conditions| == |f.worker.conditions| - 1
            && |r.value.worker.modeStack| == |f.worker.modeStack| - 1
            && r.value.scopes == Pop(f.scopes)
            && r.value.worker.mode == Last(f.worker.modeStack)
  {
  }
}
