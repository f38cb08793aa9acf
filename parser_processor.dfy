// The first generation's expression compiler (`Processor`): a line is
// merged into tokens, then compiled shunting-yard style with an operand
// deque `item` and an operator deque `symbol`; `Assemble` reduces the top
// operator by binding operands to the callee's parameters and running it.

module ParserProcessor {
  import opened Common
  import opened Objects
  import opened Analyzer
  import opened Parser
  import opened ParserLexer

  /** A compiled token: its text and the class `Kit::GetDataType` gives it. */
  datatype Lexeme = Lexeme(text: string, kind: DataType)

  // A parameter name the compiler adds to a binding map. Its spelling lives
  // in a header that is not part of this model; only its distinctness from
  // `kStrCodeSub` matters.
  const StrOperator: string := "__operator"

  /** What the compiler consults besides its own state: the entry registry,
    * the scopes `entry::FindObject` searches, the classification of
    * `Kit::GetDataType`, the method list of the raw string type, and the
    * activities behind the providers (which are not part of this model). */
  datatype Env = Env(gen: map<BasicGenToken, Provider>, base: seq<Provider>, scopes: seq<Scope>,
                     dataType: string -> DataType, rawMethods: string,
                     activity: (Provider, map<string, Object>) -> Message)

  /** The part of the processor `Assemble` changes. */
  datatype Stacks = Stacks(symbol: seq<Lexeme>, item: seq<Lexeme>, lambdamap: map<string, Object>, lambdaCount: nat)

  function Texts(s: seq<Lexeme>): (r: seq<string>)
    ensures |r| == |s| && forall i :: 0 <= i < |s| ==> r[i] == s[i].text
  {
    seq(|s|, i requires 0 <= i < |s| => s[i].text)
  }

  /** The tokens `Build` stores: each merged token with its class. */
  function Classify(dataType: string -> DataType, tokens: seq<string>): (r: seq<Lexeme>)
    ensures |r| == |tokens| && Texts(r) == tokens
    ensures forall i :: 0 <= i < |r| ==> r[i].kind == dataType(tokens[i])
  {
    seq(|tokens|, i requires 0 <= i < |tokens| => Lexeme(tokens[i], dataType(tokens[i])))
  }

  /** `GetObj`: names starting with `__` are temporaries of the line, the
    * rest are looked up in the scopes. */
  function GetObj(env: Env, lambdamap: map<string, Object>, name: string): Option<Object>
  {
    if |name| >= 2 && name[..2] == "__" then
      if name in lambdamap then Some(lambdamap[name]) else None
    else FindObject(env.scopes, name)
  }

  /** A raw-string object holding a token's text. */
  function Literal(env: Env, text: string, tokenType: TokenType): Object
  {
    Object(TypeIdRawString, env.rawMethods, Text(text), tokenType, false)
  }

  /** A parameter name without its `&` (by reference) or `%` (by name) mark. */
  function ArgName(arg: string): string
    requires arg != ""
  {
    if arg[0] == '&' || arg[0] == '%' then arg[1..] else arg
  }

  // ---------------------------------------------------------------------
  // Collecting operands

  datatype Collected = Collected(rest: seq<Lexeme>, operands: seq<Lexeme>)

  /** The operand loop of `Assemble` from a state where `acc` has been
    * collected already. */
  function TakeFrom(item: seq<Lexeme>, count: nat, acc: seq<Lexeme>): Collected
    decreases count
  {
    if count == 0 || item == [] || item[|item| - 1].text == "(" then Collected(item, acc)
    else TakeFrom(Pop(item), count - 1, [item[|item| - 1]] + acc)
  }

  lemma {:induction false} TakeFromSpec(item: seq<Lexeme>, count: nat, acc: seq<Lexeme>)
    ensures var c := TakeFrom(item, count, acc);
            c.rest + c.operands == item + acc && |acc| <= |c.operands| <= count + |acc|
            && (forall i :: 0 <= i < |c.operands| - |acc| ==> c.operands[i].text != "(")
            && (|c.operands| < count + |acc| && c.rest != [] ==> c.rest[|c.rest| - 1].text == "(")
    decreases count
  {
    if !(count == 0 || item == [] || item[|item| - 1].text == "(") {
      var x := item[|item| - 1];
      TakeFromSpec(Pop(item), count - 1, [x] + acc);
      var c := TakeFrom(item, count, acc);
      assert Pop(item) + ([x] + acc) == item + acc by {
        assert item == Pop(item) + [x];
      }
      forall i | 0 <= i < |c.operands| - |acc|
        ensures c.operands[i].text != "("
      {
        if i == |c.operands| - |acc| - 1 {
          assert c.rest + c.operands == item + acc;
          assert c.operands[i] == (item + acc)[|c.rest| + i];
        }
      }
    }
  }

  /** Moves up to `count` operands from the top of `item`, stopping at an
    * opening bracket; the operands keep their order. */
  function TakeOperands(item: seq<Lexeme>, count: nat): (c: Collected)
    ensures c.rest + c.operands == item && |c.operands| <= count
    ensures forall i :: 0 <= i < |c.operands| ==> c.operands[i].text != "("
    ensures |c.operands| < count && c.rest != [] ==> c.rest[|c.rest| - 1].text == "("
  {
    TakeFromSpec(item, count, []);
    assert item + [] == item;
    TakeFrom(item, count, [])
  }

  /** The operand deque after the bracket that bounded the operands is
    * dropped. */
  function DropBracket(rest: seq<Lexeme>): seq<Lexeme>
  {
    if rest != [] && rest[|rest| - 1].text == "(" then Pop(rest) else rest
  }

  predicate HasComma(item: seq<Lexeme>)
  {
    exists i :: 0 <= i < |item| && item[i].text == ","
  }

  /** A comma below the top survives popping the top. */
  lemma PopHasComma(item: seq<Lexeme>)
    requires HasComma(item) && item[|item| - 1].text != ","
    ensures HasComma(Pop(item))
  {
    var i :| 0 <= i < |item| && item[i].text == ",";
    assert i < |item| - 1 && Pop(item)[i] == item[i];
  }

  /** The `var` form of the operand loop from a state where `acc` has been
    * collected already. */
  function CommaFrom(item: seq<Lexeme>, acc: seq<Lexeme>): Collected
    requires HasComma(item)
    decreases |item|
  {
    if item[|item| - 1].text == "," then Collected(item, acc)
    else
      PopHasComma(item);
      CommaFrom(Pop(item), [item[|item| - 1]] + acc)
  }

  /** Position of the topmost comma. */
  function LastComma(item: seq<Lexeme>): (q: nat)
    requires HasComma(item)
    ensures q < |item| && item[q].text == ","
    decreases |item|
  {
    if item[|item| - 1].text == "," then |item| - 1
    else
      PopHasComma(item);
      LastComma(Pop(item))
  }

  lemma {:induction false} LastCommaHighest(item: seq<Lexeme>)
    requires HasComma(item)
    ensures forall i :: LastComma(item) < i < |item| ==> item[i].text != ","
    decreases |item|
  {
    if item[|item| - 1].text != "," {
      PopHasComma(item);
      LastCommaHighest(Pop(item));
    }
  }

  /** The loop splits the deque right above the topmost comma. */
  lemma {:induction false} CommaFromSplit(item: seq<Lexeme>, acc: seq<Lexeme>)
    requires HasComma(item)
    ensures var q := LastComma(item);
            CommaFrom(item, acc) == Collected(item[..q + 1], item[q + 1..] + acc)
    decreases |item|
  {
    var q := LastComma(item);
    if item[|item| - 1].text != "," {
      var x := item[|item| - 1];
      PopHasComma(item);
      CommaFromSplit(Pop(item), [x] + acc);
      assert LastComma(Pop(item)) == q;
      assert Pop(item)[..q + 1] == item[..q + 1];
      calc {
        Pop(item)[q + 1..] + ([x] + acc);
        (Pop(item)[q + 1..] + [x]) + acc;
        { assert Pop(item)[q + 1..] + [x] == item[q + 1..]; }
        item[q + 1..] + acc;
      }
    } else {
      assert item[|item|..] == [];
    }
  }

  /** In a `var a, b` line: every operand above the last comma. */
  function TakeUntilComma(item: seq<Lexeme>): (c: Collected)
    requires HasComma(item)
    ensures c.rest + c.operands == item && c.rest != [] && c.rest[|c.rest| - 1].text == ","
    ensures forall i :: 0 <= i < |c.operands| ==> c.operands[i].text != ","
  {
    CommaFromSplit(item, []);
    LastCommaHighest(item);
    var q := LastComma(item);
    assert item[..q + 1] + item[q + 1..] == item;
    CommaFrom(item, [])
  }

  // ---------------------------------------------------------------------
  // Binding operands to parameters

  /** Parameter names are readable for the first `n` parameters. */
  predicate ArgsReadable(args: seq<string>, n: nat)
  {
    n <= |args| && forall i :: 0 <= i < n ==> args[i] != ""
  }

  predicate DistinctNames(args: seq<string>, n: nat)
    requires ArgsReadable(args, n)
  {
    forall i, j :: 0 <= i < j < n ==> ArgName(args[i]) != ArgName(args[j])
  }

  /** The binding map and the last lookup failure of the binding loop. */
  datatype Bound = Bound(values: map<string, Object>, error: Option<string>)

  /** Parameter `arg` can be bound to operand `tok`: a by-reference
    * parameter needs an existing object, which the source dereferences. */
  predicate Resolvable(env: Env, lambdamap: map<string, Object>, arg: string, tok: Lexeme)
    requires arg != ""
  {
    tok.kind == GenericToken && arg[0] == '&' ==> GetObj(env, lambdamap, tok.text).Some?
  }

  /** The object one operand gives parameter `arg`. */
  function BindOne(env: Env, lambdamap: map<string, Object>, arg: string, tok: Lexeme): Object
    requires arg != "" && Resolvable(env, lambdamap, arg, tok)
  {
    if tok.kind != GenericToken then Literal(env, tok.text, TokenTypeOf(tok.kind))
    else if arg[0] == '%' then Literal(env, tok.text, TGeneric)
    else if arg[0] == '&' then GetObj(env, lambdamap, tok.text).value
    else if GetObj(env, lambdamap, tok.text).Some? then GetObj(env, lambdamap, tok.text).value
    else EmptyObject()
  }

  /** The lookup failure binding `tok` to `arg` reports, if any. */
  function BindFailure(env: Env, lambdamap: map<string, Object>, arg: string, tok: Lexeme): Option<string>
    requires arg != ""
  {
    if tok.kind == GenericToken && arg[0] != '&' && arg[0] != '%' && GetObj(env, lambdamap, tok.text).None? then
      Some("Object not found - " + tok.text)
    else None
  }

  /** The binding loop reads only operands that exist: with no operands at
    * all `tokens.size() - 1` wraps, and the first operand is read anyway. */
  predicate BindDefined(env: Env, lambdamap: map<string, Object>, args: seq<string>, operands: seq<Lexeme>, n: nat)
    requires ArgsReadable(args, n)
  {
    (n > 0 ==> |operands| > 0)
    && forall i :: 0 <= i < n && i < |operands| ==> Resolvable(env, lambdamap, args[i], operands[i])
  }

  /** The object parameter `i` gets: an empty object once the operands ran
    * out, else what its operand gives it. */
  function BoundValue(env: Env, lambdamap: map<string, Object>, args: seq<string>, operands: seq<Lexeme>, i: nat): (o: Object)
    requires ArgsReadable(args, i + 1) && BindDefined(env, lambdamap, args, operands, i + 1)
    ensures i >= |operands| ==> o == EmptyObject()
    ensures i < |operands| && operands[i].kind != GenericToken ==> o == Literal(env, operands[i].text, TokenTypeOf(operands[i].kind))
  {
    if |operands| - 1 < i then EmptyObject() else BindOne(env, lambdamap, args[i], operands[i])
  }

  /** The lookup failure parameter `i` reports, if any. */
  function StepFailure(env: Env, lambdamap: map<string, Object>, args: seq<string>, operands: seq<Lexeme>, i: nat): Option<string>
    requires ArgsReadable(args, i + 1)
  {
    if |operands| - 1 < i then None else BindFailure(env, lambdamap, args[i], operands[i])
  }

  /** The binding loop's step for parameter `i`: a later failure replaces an
    * earlier one. */
  function BindStep(env: Env, lambdamap: map<string, Object>, args: seq<string>, operands: seq<Lexeme>, i: nat, b: Bound): Bound
    requires ArgsReadable(args, i + 1) && BindDefined(env, lambdamap, args, operands, i + 1)
  {
    var f := StepFailure(env, lambdamap, args, operands, i);
    Bound(MapInsert(b.values, ArgName(args[i]), BoundValue(env, lambdamap, args, operands, i)), if f.Some? then f else b.error)
  }

  /** The binding loop after its first `n` parameters. */
  function BindRun(env: Env, lambdamap: map<string, Object>, args: seq<string>, operands: seq<Lexeme>, n: nat): Bound
    requires ArgsReadable(args, n) && BindDefined(env, lambdamap, args, operands, n)
  {
    Bound(BindValues(env, lambdamap, args, operands, n), BindError(env, lambdamap, args, operands, n))
  }

  /** The map of the binding loop after its first `n` parameters. */
  function BindValues(env: Env, lambdamap: map<string, Object>, args: seq<string>, operands: seq<Lexeme>, n: nat): map<string, Object>
    requires ArgsReadable(args, n) && BindDefined(env, lambdamap, args, operands, n)
    decreases n
  {
    if n == 0 then map[]
    else MapInsert(BindValues(env, lambdamap, args, operands, n - 1), ArgName(args[n - 1]), BoundValue(env, lambdamap, args, operands, n - 1))
  }

  /** The last lookup failure among the first `n` parameters. */
  function BindError(env: Env, lambdamap: map<string, Object>, args: seq<string>, operands: seq<Lexeme>, n: nat): Option<string>
    requires ArgsReadable(args, n)
    decreases n
  {
    if n == 0 then None
    else
      var f := StepFailure(env, lambdamap, args, operands, n - 1);
      if f.Some? then f else BindError(env, lambdamap, args, operands, n - 1)
  }

  /** The loop's step takes it from `n` parameters to `n + 1`. */
  lemma BindRunStep(env: Env, lambdamap: map<string, Object>, args: seq<string>, operands: seq<Lexeme>, n: nat)
    requires ArgsReadable(args, n + 1) && BindDefined(env, lambdamap, args, operands, n + 1)
    ensures BindRun(env, lambdamap, args, operands, n + 1)
            == BindStep(env, lambdamap, args, operands, n, BindRun(env, lambdamap, args, operands, n))
  {
  }

  /** The parameter names of the first `n` parameters. */
  function Names(args: seq<string>, n: nat): set<string>
    requires ArgsReadable(args, n)
  {
    if n == 0 then {} else Names(args, n - 1) + {ArgName(args[n - 1])}
  }

  lemma {:induction false} NamesHas(args: seq<string>, n: nat, i: nat)
    requires ArgsReadable(args, n) && i < n
    ensures ArgName(args[i]) in Names(args, n)
  {
    if i < n - 1 {
      NamesHas(args, n - 1, i);
    }
  }

  lemma {:induction false} NamesLack(args: seq<string>, n: nat, k: string)
    requires ArgsReadable(args, n) && forall i :: 0 <= i < n ==> ArgName(args[i]) != k
    ensures k !in Names(args, n)
  {
    if n > 0 {
      NamesLack(args, n - 1, k);
    }
  }

  /** Every parameter gets a binding, and nothing else does. */
  lemma {:induction false} BindCovers(env: Env, lambdamap: map<string, Object>, args: seq<string>, operands: seq<Lexeme>, n: nat)
    requires ArgsReadable(args, n) && BindDefined(env, lambdamap, args, operands, n)
    ensures BindRun(env, lambdamap, args, operands, n).values.Keys == Names(args, n)
  {
    if n > 0 {
      BindCovers(env, lambdamap, args, operands, n - 1);
    }
  }

  /** With distinct parameter names, each parameter is bound to what its own
    * position provides (`BoundValue`). */
  lemma {:induction false} BindPositional(env: Env, lambdamap: map<string, Object>, args: seq<string>, operands: seq<Lexeme>, n: nat, i: nat)
    requires ArgsReadable(args, n) && DistinctNames(args, n) && i < n
    requires BindDefined(env, lambdamap, args, operands, n)
    ensures var values := BindRun(env, lambdamap, args, operands, n).values;
            ArgName(args[i]) in values && values[ArgName(args[i])] == BoundValue(env, lambdamap, args, operands, i)
    decreases n
  {
    if i < n - 1 {
      BindPositional(env, lambdamap, args, operands, n - 1, i);
    } else {
      BindLacks(env, lambdamap, args, operands, n - 1, ArgName(args[i]));
    }
  }

  /** The binding step adds the latest parameter, whose name is new. */
  lemma BindLast(env: Env, lambdamap: map<string, Object>, args: seq<string>, operands: seq<Lexeme>, n: nat)
    requires ArgsReadable(args, n) && DistinctNames(args, n) && 0 < n
    requires BindDefined(env, lambdamap, args, operands, n)
    ensures var before := BindRun(env, lambdamap, args, operands, n - 1).values;
            ArgName(args[n - 1]) !in before
            && BindRun(env, lambdamap, args, operands, n).values
               == before[ArgName(args[n - 1]) := BoundValue(env, lambdamap, args, operands, n - 1)]
  {
    BindLacks(env, lambdamap, args, operands, n - 1, ArgName(args[n - 1]));
  }

  /** A name that is not among the first `n` parameters gets no binding. */
  lemma {:induction false} BindLacks(env: Env, lambdamap: map<string, Object>, args: seq<string>, operands: seq<Lexeme>, n: nat, k: string)
    requires ArgsReadable(args, n) && BindDefined(env, lambdamap, args, operands, n)
    requires forall i :: 0 <= i < n ==> ArgName(args[i]) != k
    ensures k !in BindRun(env, lambdamap, args, operands, n).values
  {
    if n > 0 {
      BindLacks(env, lambdamap, args, operands, n - 1, k);
    }
  }

  // ---------------------------------------------------------------------
  // One reduction

  /** A provider whose parameter names can be read for every parameter. */
  predicate Readable(p: Provider)
  {
    p.Provider? && ArgsReadable(p.args, p.parameterSize)
  }

  /** `provider.Start(map)`: a good provider runs its activity. */
  function ProviderStart(env: Env, p: Provider, values: map<string, Object>): Message
  {
    if p.Good() then env.activity(p, values) else Combo(StrFatalError, CodeIllegalCall, "Illegal entry.")
  }

  /** Which message the line's mode lets through: while a loop is skipped
    * only `end` runs and `if`/`while` heads are counted; while a branch is
    * skipped, `else`, `end` and `elif` lines run. */
  function Dispatch(env: Env, mode: Mode, id: string, front: string, p: Provider, values: map<string, Object>, msg: Message): Message
  {
    match mode
    case CycleJump =>
      if id == StrEnd then ProviderStart(env, p, values)
      else if front == StrIf || front == StrWhile then Combo(StrRedirect, CodeFillingSign, StrTrue)
      else msg
    case NextCondition =>
      if front == StrIf || front == StrWhile then Combo(StrRedirect, CodeFillingSign, StrTrue)
      else if id == StrElse || id == StrEnd then ProviderStart(env, p, values)
      else if front == StrElif then ProviderStart(env, p, values)
      else Combo(StrEmpty, CodeSuccess, StrEmpty)
    case _ => ProviderStart(env, p, values)
  }

  /** Every temporary of the line keeps its object. */
  predicate Keeps(before: map<string, Object>, after: map<string, Object>)
  {
    forall k :: k in before ==> k in after && after[k] == before[k]
  }

  /** What a message leaves on the operand deque: a produced object becomes
    * a numbered temporary, a redirect becomes a literal token; the operator
    * is popped. */
  function Absorb(env: Env, s: Stacks, msg: Message): (r: (Stacks, bool))
    requires |s.symbol| > 0
    ensures r.0.symbol == Pop(s.symbol) && Keeps(s.lambdamap, r.0.lambdamap) && s.lambdaCount <= r.0.lambdaCount
  {
    var s1 :=
      if msg.code == CodeObject then
        var tempId := msg.detail + NatToString(s.lambdaCount);
        s.(item := s.item + [Lexeme(tempId, GenericToken)], lambdamap := MapInsert(s.lambdamap, tempId, msg.obj),
           lambdaCount := s.lambdaCount + 1)
      else if msg.value == StrRedirect && (msg.code == CodeSuccess || msg.code == CodeFillingSign) then
        s.(item := s.item + [Lexeme(msg.detail, env.dataType(msg.detail))])
      else s;
    (s1.(symbol := Pop(s.symbol)), msg.value != StrFatalError && msg.value != StrWarning)
  }

  /** The `__nop` reduction of a bracketed group: everything from the last
    * opening bracket up is replaced by the group's value, the old top. */
  function NopCollapse(item: seq<Lexeme>): (r: seq<Lexeme>)
    requires |item| > 0
    ensures |r| > 0 && r[|r| - 1] == item[|item| - 1] && |r| <= |item|
  {
    DropBracket(TakeOperands(item, |item|).rest) + [item[|item| - 1]]
  }

  /** The group collapse keeps everything below the last opening bracket
    * and puts the group's value, the old top, in place of the rest. */
  lemma NopCollapseGroup(item: seq<Lexeme>)
    requires |item| > 0
    ensures var p := LastParen(item, |item|);
            NopCollapse(item) == (if p < 0 then [] else item[..p]) + [item[|item| - 1]]
  {
    var p := LastParen(item, |item|);
    if p >= 0 {
      OperandsStopAtParen(item, p);
    } else {
      OperandsWithoutParen(item);
    }
  }

  /** Taking all operands stops right above the last opening bracket, which
    * is then dropped. */
  lemma OperandsStopAtParen(item: seq<Lexeme>, p: nat)
    requires p < |item| && item[p].text == "("
    requires forall i :: p < i < |item| ==> item[i].text != "("
    ensures DropBracket(TakeOperands(item, |item|).rest) == item[..p]
  {
    var c := TakeOperands(item, |item|);
    var q := |c.rest| - 1;
    assert c.rest[q] == item[q];
    assert c.rest == item[..p + 1];
  }

  /** Without an opening bracket every operand is taken. */
  lemma OperandsWithoutParen(item: seq<Lexeme>)
    requires forall i :: 0 <= i < |item| ==> item[i].text != "("
    ensures TakeOperands(item, |item|).rest == []
  {
    var c := TakeOperands(item, |item|);
    PrefixLast(c.rest, c.operands, item);
  }

  lemma PrefixLast(rest: seq<Lexeme>, operands: seq<Lexeme>, item: seq<Lexeme>)
    requires rest + operands == item
    ensures rest != [] ==> rest[|rest| - 1] == item[|rest| - 1]
  {
    if rest != [] {
      assert item[|rest| - 1] == (rest + operands)[|rest| - 1];
    }
  }

  /** The `__nop` path as the source writes it: the group's value is read
    * from the local operand deque `tokens`, which is still empty on this
    * path, so it is defined only for a non-empty `tokens`. */
  function NopPathAsWritten(item: seq<Lexeme>, tokens: seq<Lexeme>): Option<seq<Lexeme>>
    requires |item| > 0
  {
    if tokens == [] then None
    else Some(DropBracket(TakeOperands(item, |item|).rest) + [tokens[|tokens| - 1]])
  }

  /** On the line `(1)` the source reads the back of an empty deque where the
    * group's value `1`, which it saved beforehand, was evidently meant. */
  lemma NopPathCounterexample()
    ensures var item := [Lexeme("(", TypeSymbol), Lexeme("1", TypeInteger)];
            NopPathAsWritten(item, []) == None && NopCollapse(item) == [Lexeme("1", TypeInteger)]
  {
    var item := [Lexeme("(", TypeSymbol), Lexeme("1", TypeInteger)];
    NopCollapseGroup(item);
    assert LastParen(item, 2) == 0;
  }

  /** A size tag that `stoi` reads without throwing. */
  predicate SizeTagReadable(tags: seq<string>)
  {
    |tags| > 1 ==> tags[1] != "" && AllDigits(tags[1])
  }

  /** The callee `Assemble` looks up for operator-stack entry `top`. */
  function Lookup(env: Env, top: string): Provider
    requires SizeTagReadable(Spilt(top))
  {
    var tags := Spilt(top);
    var providerType := if tags == [] then TypeIdNull else tags[0];
    var providerSize: int := if |tags| > 1 then DecimalValue(tags[1]) else -1;
    Order(env.gen, env.base, GetHead(top), providerType, providerSize)
  }

  /** The operands `Assemble` takes for provider `p`. `None`: the `var`
    * form on a deque without a comma, where the source reads past its
    * bottom. */
  function Operands(p: Provider, disable: bool, item: seq<Lexeme>): Option<Collected>
  {
    if !disable then
      var c := TakeOperands(item, p.ParameterSize());
      Some(Collected(DropBracket(c.rest), c.operands))
    else if HasComma(item) then Some(TakeUntilComma(item))
    else None
  }

  /** The bindings `Assemble` adds after the parameters: the line index for
    * `for`, the operator text for operator entries, and the receiver for
    * methods (popped from the operand deque). `None`: a method call without
    * a resolvable receiver. */
  function Extras(env: Env, s: Stacks, id: string, index: nat, p: Provider, values: map<string, Object>): (r: Option<(Stacks, map<string, Object>)>)
    requires |s.symbol| > 0 && p.Provider?
    ensures r.Some? ==> r.value.0.symbol == s.symbol && r.value.0.lambdamap == s.lambdamap && r.value.0.lambdaCount == s.lambdaCount
    ensures r.Some? ==> values.Keys <= r.value.1.Keys && forall k :: k in values ==> r.value.1[k] == values[k]
    ensures r.Some? && id == StrFor ==> StrCodeSub in r.value.1
    ensures !p.priority.FlagMethod? ==> r.Some? && r.value.0 == s
    ensures p.priority == FlagOperatorEntry ==> StrOperator in r.value.1
    ensures p.priority.FlagMethod? ==>
              (r.Some? <==> s.item != [] && GetObj(env, s.lambdamap, Last(s.item).text).Some?)
              && (r.Some? ==> StrObject in r.value.1 && r.value.0 == s.(item := Pop(s.item)))
  {
    var v1 := if id == StrFor then MapInsert(values, StrCodeSub, Literal(env, NatToString(index), TInteger)) else values;
    if p.priority == FlagOperatorEntry then Some((s, MapInsert(v1, StrOperator, Literal(env, s.symbol[|s.symbol| - 1].text, TSymbol))))
    else if p.priority == FlagNormalEntry then Some((s, v1))
    else if s.item == [] then None
    else
      var o := GetObj(env, s.lambdamap, s.item[|s.item| - 1].text);
      if o.None? then None else Some((s.(item := Pop(s.item)), MapInsert(v1, StrObject, o.value)))
  }

  const MsgCountMismatch: string := "Parameter doesn't match expected count.(01)"
  const MsgNoParameter: string := "You should provide at least one parameter.(02)"

  /** `Assemble`: reduces the top of the operator deque. The result is the
    * new stacks, the message and whether the line stays healthy; `None`
    * where the source's behaviour is undefined. */
  function AssembleSpec(env: Env, mode: Mode, index: nat, disable: bool, s: Stacks, msg: Message): (r: Option<(Stacks, Message, bool)>)
    ensures r.Some? ==> |s.symbol| > 0 && (r.value.2 ==> r.value.0.symbol == Pop(s.symbol))
    ensures r.Some? ==> Keeps(s.lambdamap, r.value.0.lambdamap) && s.lambdaCount <= r.value.0.lambdaCount
  {
    if s.symbol == [] then None
    else
      var top := s.symbol[|s.symbol| - 1].text;
      if !SizeTagReadable(Spilt(top)) then None
      else if GetHead(top) == StrNop then NopReduce(s, msg)
      else CalleeReduce(env, mode, index, disable, s, GetHead(top), Lookup(env, top), msg)
  }

  /** The `__nop` reduction, with the value of the group taken from the
    * top of the operand deque (see `NopCollapse`). */
  function NopReduce(s: Stacks, msg: Message): (r: Option<(Stacks, Message, bool)>)
    requires |s.symbol| > 0
    ensures r.Some? ==> r.value.0.lambdamap == s.lambdamap && r.value.0.lambdaCount == s.lambdaCount
  {
    if s.item == [] then None else Some((s.(item := NopCollapse(s.item), symbol := Pop(s.symbol)), msg, true))
  }

  /** `Assemble` for a callee `id` that resolved to provider `p`. */
  function CalleeReduce(env: Env, mode: Mode, index: nat, disable: bool, s: Stacks, id: string, p: Provider, msg: Message): (r: Option<(Stacks, Message, bool)>)
    requires |s.symbol| > 0
    ensures r.Some? && r.value.2 ==> r.value.0.symbol == Pop(s.symbol)
    ensures r.Some? ==> Keeps(s.lambdamap, r.value.0.lambdamap) && s.lambdaCount <= r.value.0.lambdaCount
  {
    if !p.Good() then Some((s.(symbol := Pop(s.symbol)), Combo(StrFatalError, CodeIllegalCall, "Activity not found - " + id), false))
    else if !Readable(p) then None
    else
      match Operands(p, disable, s.item)
      case None => None
      case Some(c) => Reduce(env, mode, index, s.(item := c.rest), id, p, c.operands, msg)
  }

  /** `Assemble` once its operands are off the deque: arity checks, binding,
    * running the callee. */
  function Reduce(env: Env, mode: Mode, index: nat, s: Stacks, id: string, p: Provider, operands: seq<Lexeme>, msg: Message): (r: Option<(Stacks, Message, bool)>)
    requires |s.symbol| > 0 && Readable(p)
    ensures r.Some? && r.value.2 ==> r.value.0.symbol == Pop(s.symbol)
    ensures r.Some? ==> Keeps(s.lambdamap, r.value.0.lambdamap) && s.lambdaCount <= r.value.0.lambdaCount
  {
    if p.mode == NormalParm && |operands| != p.parameterSize then Some((s, Combo(StrFatalError, CodeIllegalParm, MsgCountMismatch), false))
    else if p.mode == AutoFill && |operands| < 1 then Some((s, Combo(StrFatalError, CodeIllegalParm, MsgNoParameter), false))
    else
      if !BindDefined(env, s.lambdamap, p.args, operands, p.parameterSize) then None
      else
        var b := BindRun(env, s.lambdamap, p.args, operands, p.parameterSize);
        match Extras(env, s, id, index, p, b.values)
        case None => None
        case Some(e) =>
          if b.error.Some? then Some((e.0, Combo(StrFatalError, CodeIllegalCall, b.error.value), false))
          else Some(Finalize(env, mode, id, p, e.0, e.1, msg))
  }

  /** Running the callee with its bindings and absorbing its message. */
  function Finalize(env: Env, mode: Mode, id: string, p: Provider, s: Stacks, values: map<string, Object>, msg: Message): (r: (Stacks, Message, bool))
    requires |s.symbol| > 0
    ensures r.0.symbol == Pop(s.symbol)
    ensures Keeps(s.lambdamap, r.0.lambdamap) && s.lambdaCount <= r.0.lambdaCount
  {
    var m := Dispatch(env, mode, id, s.symbol[0].text, p, values, msg);
    var a := Absorb(env, s, m);
    (a.0, m, a.1)
  }

  /** A fixed-arity callee runs only on exactly as many operands as it has
    * parameters, an auto-filled one only on at least one operand; otherwise
    * the line fails and the operator stays on its deque. */
  lemma ReduceArity(env: Env, mode: Mode, index: nat, s: Stacks, id: string, p: Provider, operands: seq<Lexeme>, msg: Message)
    requires |s.symbol| > 0 && Readable(p)
    ensures var r := Reduce(env, mode, index, s, id, p, operands, msg);
            (p.mode == NormalParm && |operands| != p.parameterSize ==>
               r == Some((s, Combo(StrFatalError, CodeIllegalParm, MsgCountMismatch), false)))
            && (p.mode == AutoFill && |operands| == 0 ==>
               r == Some((s, Combo(StrFatalError, CodeIllegalParm, MsgNoParameter), false)))
            && (r.Some? && r.value.2 ==>
               (p.mode == NormalParm ==> |operands| == p.parameterSize) && (p.mode == AutoFill ==> |operands| > 0))
  {
  }

  /** An operator whose callee is unknown is dropped and reported. */
  lemma AssembleUnknownCallee(env: Env, mode: Mode, index: nat, disable: bool, s: Stacks, msg: Message)
    requires |s.symbol| > 0
    requires var top := s.symbol[|s.symbol| - 1].text;
             SizeTagReadable(Spilt(top)) && GetHead(top) != StrNop && !Lookup(env, top).Good()
    ensures var top := s.symbol[|s.symbol| - 1].text;
            AssembleSpec(env, mode, index, disable, s, msg)
              == Some((s.(symbol := Pop(s.symbol)), Combo(StrFatalError, CodeIllegalCall, "Activity not found - " + GetHead(top)), false))
  {
  }

  /** One reduction of the operator deque: new stacks, message, and
    * whether the line stays healthy; `None` where behaviour is undefined. */
  type Reducer = (Stacks, Message) -> Option<(Stacks, Message, bool)>

  /** `Assemble` as a reducer. */
  function AssembleStep(env: Env, mode: Mode, index: nat, disable: bool): Reducer
  {
    (s: Stacks, m: Message) => AssembleSpec(env, mode, index, disable, s, m)
  }

  /** `Assemble` pops the operator deque whenever the line stays healthy. */
  lemma AssemblePops(env: Env, mode: Mode, index: nat, disable: bool)
    ensures var step := AssembleStep(env, mode, index, disable);
            forall s: Stacks, m: Message :: step(s, m).Some? && step(s, m).value.2 ==> |s.symbol| > 0 && step(s, m).value.0.symbol == Pop(s.symbol)
  {
    forall s: Stacks, m: Message
      ensures var r := AssembleStep(env, mode, index, disable)(s, m);
              r.Some? && r.value.2 ==> |s.symbol| > 0 && r.value.0.symbol == Pop(s.symbol)
    {
      var r := AssembleSpec(env, mode, index, disable, s, m);
    }
  }

  /** Brackets: reduces until the nearest `(`, drops it and reduces once
    * more. A reducer that does not pop the deque is not iterated (`Assemble`
    * always pops, see `AssemblePops`). */
  function CloseGroup(step: Reducer, s: Stacks, msg: Message): Option<(Stacks, Message, bool)>
    decreases |s.symbol|
  {
    if s.symbol == [] then None
    else if s.symbol[|s.symbol| - 1].text == "(" then step(s.(symbol := Pop(s.symbol)), msg)
    else
      match step(s, msg)
      case None => None
      case Some(r) =>
        if !r.2 then Some(r)
        else if |r.0.symbol| < |s.symbol| then CloseGroup(step, r.0, r.1)
        else None
  }

  /** One reduction below the `(` that keeps the line healthy leaves the
    * rest of the closing to the reduced stacks. */
  lemma CloseGroupStep(step: Reducer, s: Stacks, msg: Message, r: (Stacks, Message, bool))
    requires |s.symbol| > 0 && s.symbol[|s.symbol| - 1].text != "("
    requires step(s, msg) == Some(r) && r.2 && |r.0.symbol| < |s.symbol|
    ensures CloseGroup(step, s, msg) == CloseGroup(step, r.0, r.1)
  {
  }

  /** `CloseGroup` with `Assemble` as the reducer. */
  function CloseGroupAssemble(env: Env, mode: Mode, index: nat, disable: bool, s: Stacks, msg: Message): Option<(Stacks, Message, bool)>
  {
    CloseGroup(AssembleStep(env, mode, index, disable), s, msg)
  }

  /** Index of the topmost `(` at or below position `t`. */
  function LastParen(symbol: seq<Lexeme>, t: nat): (p: int)
    requires t <= |symbol|
    ensures -1 <= p < t
    ensures p >= 0 ==> symbol[p].text == "("
    ensures forall i :: p < i < t ==> symbol[i].text != "("
  {
    if t == 0 then -1 else if symbol[t - 1].text == "(" then t - 1 else LastParen(symbol, t - 1)
  }

  /** A successful `)` removes the nearest `(`, every operator above it, and
    * the callee (or `__nop`) below it, and nothing else. */
  lemma {:induction false} CloseGroupSymbols(step: Reducer, s: Stacks, msg: Message)
    requires forall s0: Stacks, m: Message :: step(s0, m).Some? && step(s0, m).value.2 ==> |s0.symbol| > 0 && step(s0, m).value.0.symbol == Pop(s0.symbol)
    requires CloseGroup(step, s, msg).Some?
    ensures var r := CloseGroup(step, s, msg).value;
            r.2 ==> var p := LastParen(s.symbol, |s.symbol|);
                    p >= 1 && r.0.symbol == s.symbol[..p - 1]
    decreases |s.symbol|
  {
    var n := |s.symbol|;
    if s.symbol[n - 1].text != "(" {
      var r := step(s, msg).value;
      if r.2 {
        CloseGroupSymbols(step, r.0, r.1);
        LastParenPrefix(s.symbol, n - 1);
        var p := LastParen(s.symbol, n);
        if CloseGroup(step, r.0, r.1).value.2 {
          assert s.symbol[..n - 1][..p - 1] == s.symbol[..p - 1];
        }
      }
    }
  }

  /** The same for the brackets of the source, reduced by `Assemble`. */
  lemma RightBracketSymbols(env: Env, mode: Mode, index: nat, disable: bool, s: Stacks, msg: Message)
    requires CloseGroupAssemble(env, mode, index, disable, s, msg).Some?
    ensures var r := CloseGroupAssemble(env, mode, index, disable, s, msg).value;
            r.2 ==> var p := LastParen(s.symbol, |s.symbol|);
                    p >= 1 && r.0.symbol == s.symbol[..p - 1]
  {
    AssemblePops(env, mode, index, disable);
    CloseGroupSymbols(AssembleStep(env, mode, index, disable), s, msg);
  }

  lemma {:induction false} LastParenPrefix(symbol: seq<Lexeme>, t: nat)
    requires t < |symbol| && symbol[t].text != "("
    ensures LastParen(symbol, t + 1) == LastParen(symbol[..t], t)
  {
    LastParenSame(symbol, symbol[..t], t);
  }

  lemma {:induction false} LastParenSame(a: seq<Lexeme>, b: seq<Lexeme>, t: nat)
    requires t <= |a| && t <= |b| && a[..t] == b[..t]
    ensures LastParen(a, t) == LastParen(b, t)
  {
    if t > 0 {
      assert a[t - 1] == a[..t][t - 1] == b[..t][t - 1] == b[t - 1];
      assert a[..t - 1] == a[..t][..t - 1] == b[..t][..t - 1] == b[..t - 1];
      LastParenSame(a, b, t - 1);
    }
  }

  // ---------------------------------------------------------------------
  // Placing an operator

  /** Where the scan of `OtherSymbols` stops: an opening bracket, or an
    * operator that binds no tighter than `cur`. */
  predicate Stops(cur: string, t: Lexeme)
  {
    t.text == "(" || GetPriority(cur) >= GetPriority(t.text)
  }

  /** Does `cur` go below the top of the operator deque? */
  predicate Inserts(symbol: seq<Lexeme>, cur: string)
  {
    symbol != [] && GetPriority(cur) < GetPriority(symbol[|symbol| - 1].text)
    && symbol[|symbol| - 1].text != "(" && symbol[|symbol| - 1].text != "["
  }

  /** The scan finds a stopping entry before running off the bottom (where
    * the source's unsigned index wraps). */
  predicate OtherSymbolsDefined(symbol: seq<Lexeme>, cur: string)
  {
    Inserts(symbol, cur) ==> exists i :: 0 <= i < |symbol| && Stops(cur, symbol[i])
  }

  /** The highest stopping entry below `t`. */
  function LastStop(symbol: seq<Lexeme>, cur: string, t: nat): (i: nat)
    requires t <= |symbol| && exists i :: 0 <= i < t && Stops(cur, symbol[i])
    ensures i < t && Stops(cur, symbol[i])
    decreases t
  {
    if Stops(cur, symbol[t - 1]) then t - 1
    else
      assert exists i :: 0 <= i < t - 1 && Stops(cur, symbol[i]) by {
        var i :| 0 <= i < t && Stops(cur, symbol[i]);
        assert i != t - 1;
      }
      LastStop(symbol, cur, t - 1)
  }

  /** No entry between the highest stopping one and `t` stops the scan. */
  lemma {:induction false} LastStopHighest(symbol: seq<Lexeme>, cur: string, t: nat)
    requires t <= |symbol| && exists i :: 0 <= i < t && Stops(cur, symbol[i])
    ensures forall m :: LastStop(symbol, cur, t) < m < t ==> !Stops(cur, symbol[m])
    decreases t
  {
    if !Stops(cur, symbol[t - 1]) {
      assert exists i :: 0 <= i < t - 1 && Stops(cur, symbol[i]) by {
        var i :| 0 <= i < t && Stops(cur, symbol[i]);
        assert i != t - 1;
      }
      LastStopHighest(symbol, cur, t - 1);
    }
  }

  /** Every stopping entry below `t` is at or below the highest one. */
  lemma {:induction false} LastStopAbove(symbol: seq<Lexeme>, cur: string, t: nat, j: nat)
    requires j < t <= |symbol| && Stops(cur, symbol[j])
    ensures j <= LastStop(symbol, cur, t)
    decreases t
  {
    if j < t - 1 && !Stops(cur, symbol[t - 1]) {
      LastStopAbove(symbol, cur, t - 1, j);
    }
  }

  /** `GetRequiredCount` as the `size_t` it returns. */
  function RequiredSize(gen: map<BasicGenToken, Provider>, base: seq<Provider>, id: string): SizeT
  {
    GetRequiredCount(gen, base, id) % SizeMod
  }

  /** The operand counts of all operators, as `OtherSymbols` reads them. */
  function RequiredSizes(gen: map<BasicGenToken, Provider>, base: seq<Provider>): string -> SizeT
  {
    id => RequiredSize(gen, base, id)
  }

  /** One update of the operand split point in `size_t` arithmetic: the
    * first operator passed takes all its operands, every further one all
    * but the one that is the result of the operator above it. */
  function SplitStep(required: string -> SizeT, id: string, k: SizeT, itemSize: SizeT): SizeT
  {
    var rc := required(id);
    if k == itemSize then SubSize(k, rc) else SubSize(k, SubSize(rc, 1))
  }

  /** The split point after the scan passed the entries from the top down
    * to `lo`. */
  function SplitIndex(required: string -> SizeT, symbol: seq<Lexeme>, lo: nat, itemSize: SizeT): SizeT
    requires lo <= |symbol|
    decreases |symbol| - lo
  {
    if lo == |symbol| then itemSize
    else SplitStep(required, symbol[lo].text, SplitIndex(required, symbol, lo + 1, itemSize), itemSize)
  }

  /** `k` is the split point after the scan passed the entries down to `lo`. */
  predicate SplitAt(required: string -> SizeT, symbol: seq<Lexeme>, lo: nat, itemSize: SizeT, k: SizeT)
  {
    lo <= |symbol| && k == SplitIndex(required, symbol, lo, itemSize)
  }

  /** The operator deque after `cur` is placed. */
  function Placed(symbol: seq<Lexeme>, cur: Lexeme): seq<Lexeme>
    requires OtherSymbolsDefined(symbol, cur.text)
  {
    if !Inserts(symbol, cur.text) then symbol + [cur]
    else
      var p := LastStop(symbol, cur.text, |symbol|) + 1;
      symbol[..p] + [cur] + symbol[p..]
  }

  /** The two ways a new operator lands: pushed on top, or inserted directly
    * above the highest entry that stops the scan, so that every entry above
    * it binds strictly tighter and none is an opening bracket. */
  lemma OtherSymbolsPlacement(symbol: seq<Lexeme>, cur: Lexeme)
    requires OtherSymbolsDefined(symbol, cur.text)
    ensures !Inserts(symbol, cur.text) ==> Placed(symbol, cur) == symbol + [cur]
    ensures Inserts(symbol, cur.text) ==>
              var p := LastStop(symbol, cur.text, |symbol|) + 1;
              var r := Placed(symbol, cur);
              1 <= p < |symbol| && |r| == |symbol| + 1
              && r[p] == cur && r[..p] == symbol[..p] && r[p + 1..] == symbol[p..]
              && Stops(cur.text, r[p - 1])
              && forall m :: p < m < |r| ==> r[m].text != "(" && GetPriority(cur.text) < GetPriority(r[m].text)
  {
    if Inserts(symbol, cur.text) {
      var p := LastStop(symbol, cur.text, |symbol|) + 1;
      var r := Placed(symbol, cur);
      LastStopHighest(symbol, cur.text, |symbol|);
      assert r[p + 1..] == symbol[p..];
      forall m | p < m < |r|
        ensures r[m].text != "(" && GetPriority(cur.text) < GetPriority(r[m].text)
      {
        assert r[m] == symbol[m - 1];
      }
    }
  }

  // ---------------------------------------------------------------------
  // Increment and decrement

  /** The operator `++`/`--` pushes: the prefix form unless it follows an
    * identifier. */
  function SelfOpSymbols(forward: Lexeme, op: OperatorCode): seq<Lexeme>
  {
    if forward.kind != GenericToken then
      if op == SelfInc then [Lexeme(StrLeftSelfInc, GenericToken)]
      else if op == SelfDec then [Lexeme(StrLeftSelfDec, GenericToken)]
      else []
    else
      if op == SelfInc then [Lexeme(StrRightSelfInc, GenericToken)]
      else if op == SelfDec then [Lexeme(StrRightSelfDec, GenericToken)]
      else []
  }

  /** `++` and `--` push exactly one operator: postfix after an identifier,
    * prefix otherwise, incrementing for `++` and decrementing for `--`. */
  lemma SelfOpForms(forward: Lexeme, text: string)
    requires text in {"++", "--"}
    ensures var r := SelfOpSymbols(forward, GetOperatorCode(text));
            |r| == 1
            && (r[0].text in {StrLeftSelfInc, StrLeftSelfDec} <==> forward.kind != GenericToken)
            && (r[0].text in {StrLeftSelfInc, StrRightSelfInc} <==> text == "++")
  {
  }

  // ---------------------------------------------------------------------

  class Processor {
    var origin: seq<Lexeme>
    var item: seq<Lexeme>
    var symbol: seq<Lexeme>
    var health: bool
    var errorString: string
    var index: nat
    var mode: Mode
    var currentToken: Lexeme
    var forwardToken: Lexeme
    var nextInsertSubscript: SizeT
    var insertBtnSymbols: bool
    var disableSetEntry: bool
    var lambdamap: map<string, Object>
    var lambdaObjectCount: nat

    constructor ()
      ensures origin == [] && item == [] && symbol == [] && !health && errorString == ""
      ensures lambdamap == map[] && lambdaObjectCount == 0 && !insertBtnSymbols && !disableSetEntry
    {
      origin, item, symbol := [], [], [];
      health, errorString := false, "";
      index, mode := 0, Normal;
      currentToken, forwardToken := Lexeme("", TypeNull), Lexeme("", TypeNull);
      nextInsertSubscript, insertBtnSymbols, disableSetEntry := 0, false, false;
      lambdamap, lambdaObjectCount := map[], 0;
    }

    function State(): Stacks
      reads this
    {
      Stacks(symbol, item, lambdamap, lambdaObjectCount)
    }

    /** `Build`: the merge pass over the raw tokens of a line; a healthy
      * line keeps its merged tokens with their classes. */
    method Build(kit: Kit, dataType: string -> DataType, raw: seq<string>)
      requires MergeDefined(kit, raw)
      modifies this`origin, this`item, this`symbol, this`health, this`errorString
      ensures var out := Finish(Run(kit, raw, |raw|));
              health == out.health && item == [] && symbol == []
              && origin == (if out.health then Classify(dataType, out.tokens) else [])
              && errorString == (if out.errorString.Some? then out.errorString.value else old(errorString))
      ensures health ==> Flatten(Texts(origin)) == Flatten(raw)
    {
      health := true;
      origin, item, symbol := [], [], [];
      var out := MergePass(kit, raw);
      MergeOutcomeSpec(kit, raw);
      if out.errorString.Some? {
        errorString := out.errorString.value;
        health := false;
      } else {
        origin := ClassifyAll(dataType, out.tokens);
      }
    }

    /** The loop of `Build` that stores each merged token with its class. */
    static method ClassifyAll(dataType: string -> DataType, tokens: seq<string>) returns (r: seq<Lexeme>)
      ensures r == Classify(dataType, tokens)
    {
      r := [];
      var i := 0;
      while i < |tokens|
        invariant 0 <= i <= |tokens|
        invariant r == Classify(dataType, tokens[..i])
      {
        r := r + [Lexeme(tokens[i], dataType(tokens[i]))];
        i := i + 1;
        assert tokens[..i] == tokens[..i - 1] + [tokens[i - 1]];
      }
      assert tokens[..i] == tokens;
    }

    /** The guard at the head of `Start`: a line that failed to build is
      * refused with its error and nothing is compiled; otherwise the
      * per-line state is reset and the token loop follows (`None`). */
    method Start(newMode: Mode) returns (refused: Option<Message>)
      modifies this`mode, this`lambdaObjectCount, this`nextInsertSubscript, this`insertBtnSymbols, this`disableSetEntry
      ensures !health ==> refused == Some(Combo(StrFatalError, CodeBadExpression, errorString))
                          && mode == old(mode) && lambdaObjectCount == old(lambdaObjectCount)
                          && nextInsertSubscript == old(nextInsertSubscript)
                          && insertBtnSymbols == old(insertBtnSymbols) && disableSetEntry == old(disableSetEntry)
      ensures health ==> refused == None && mode == newMode && lambdaObjectCount == 0 && nextInsertSubscript == 0
                         && !insertBtnSymbols && !disableSetEntry
    {
      if !health {
        return Some(Combo(StrFatalError, CodeBadExpression, errorString));
      }
      mode := newMode;
      lambdaObjectCount := 0;
      nextInsertSubscript := 0;
      insertBtnSymbols, disableSetEntry := false, false;
      refused := None;
    }

    /** `OtherSymbols`: places an ordinary operator on the operator deque.
      * `required` gives each operator's operand count, as `RequiredSizes`
      * computes it from the entry tables. */
    method OtherSymbols(required: string -> SizeT)
      requires |item| < SizeMod
      requires OtherSymbolsDefined(symbol, currentToken.text)
      modifies this`symbol, this`nextInsertSubscript, this`insertBtnSymbols
      ensures symbol == Placed(old(symbol), currentToken)
      ensures !Inserts(old(symbol), currentToken.text) ==>
                nextInsertSubscript == old(nextInsertSubscript) && insertBtnSymbols == old(insertBtnSymbols)
      ensures Inserts(old(symbol), currentToken.text) ==>
                SplitAt(required, old(symbol), LastStop(old(symbol), currentToken.text, |old(symbol)|) + 1, |item|, nextInsertSubscript)
                && insertBtnSymbols
    {
      var cur := currentToken.text;
      if !Inserts(symbol, cur) {
        symbol := symbol + [currentToken];
        return;
      }
      InsertSymbol(required);
    }

    /** The inserting branch of `OtherSymbols`: the operator goes in above
      * the entry that stops the scan. */
    method InsertSymbol(required: string -> SizeT)
      requires |item| < SizeMod
      requires Inserts(symbol, currentToken.text) && OtherSymbolsDefined(symbol, currentToken.text)
      modifies this`symbol, this`nextInsertSubscript, this`insertBtnSymbols
      ensures symbol == Placed(old(symbol), currentToken)
      ensures SplitAt(required, old(symbol), LastStop(old(symbol), currentToken.text, |old(symbol)|) + 1, |item|, nextInsertSubscript)
      ensures insertBtnSymbols
    {
      var j, k := ScanStops(required, symbol, currentToken.text, |item|);
      symbol := symbol[..j + 1] + [currentToken] + symbol[j + 1..];
      nextInsertSubscript := k;
      insertBtnSymbols := true;
    }

    /** The scan of `OtherSymbols`: walks down from the top to the entry
      * that stops it, updating the operand split point on the way. */
    static method ScanStops(required: string -> SizeT, symbol: seq<Lexeme>, cur: string, itemSize: SizeT)
      returns (j: nat, k: SizeT)
      requires Inserts(symbol, cur) && OtherSymbolsDefined(symbol, cur)
      ensures j == LastStop(symbol, cur, |symbol|)
      ensures SplitAt(required, symbol, LastStop(symbol, cur, |symbol|) + 1, itemSize, k)
    {
      ghost var p := LastStop(symbol, cur, |symbol|);
      j := |symbol| - 1;
      k := itemSize;
      while !Stops(cur, symbol[j])
        invariant p <= j < |symbol|
        invariant SplitAt(required, symbol, j + 1, itemSize, k)
        decreases j
      {
        assert j != p;
        k := SplitStep(required, symbol[j].text, k, itemSize);
        j := j - 1;
      }
      LastStopAbove(symbol, cur, |symbol|, j);
    }

    /** `SelfOperator`: `++`/`--` as a prefix or postfix operator. */
    method SelfOperator() returns (ok: bool)
      modifies this`symbol
      ensures ok && symbol == old(symbol) + SelfOpSymbols(forwardToken, GetOperatorCode(currentToken.text))
    {
      var op := GetOperatorCode(currentToken.text);
      if forwardToken.kind != GenericToken {
        if op == SelfInc { symbol := symbol + [Lexeme(StrLeftSelfInc, GenericToken)]; }
        else if op == SelfDec { symbol := symbol + [Lexeme(StrLeftSelfDec, GenericToken)]; }
      } else {
        if op == SelfInc { symbol := symbol + [Lexeme(StrRightSelfInc, GenericToken)]; }
        else if op == SelfDec { symbol := symbol + [Lexeme(StrRightSelfDec, GenericToken)]; }
      }
      ok := true;
    }

    /** `Colon`: a colon is legal only in a `for` line. */
    method Colon() returns (ok: bool)
      requires |symbol| > 0
      modifies this`errorString
      ensures ok <==> symbol[0].text == StrFor
      ensures ok ==> errorString == old(errorString)
      ensures !ok ==> errorString == "Illegal colon location."
    {
      if symbol[0].text != StrFor {
        errorString := "Illegal colon location.";
        return false;
      }
      return true;
    }

    /** The operand loop of `Assemble`: pops up to `count` operands, stopping
      * at an opening bracket, then drops that bracket. */
    method CollectOperands(count0: nat) returns (tokens: seq<Lexeme>)
      modifies this`item
      ensures var c := TakeOperands(old(item), count0);
              tokens == c.operands && item == DropBracket(c.rest)
    {
      tokens := [];
      var count: nat := count0;
      ghost var item0 := item;
      while count > 0 && item != [] && item[|item| - 1].text != "("
        invariant TakeFrom(item0, count0, []) == TakeFrom(item, count, tokens)
        decreases count
      {
        tokens := [item[|item| - 1]] + tokens;
        item := Pop(item);
        count := count - 1;
      }
      if item != [] && item[|item| - 1].text == "(" {
        item := Pop(item);
      }
    }

    /** The `var` form of the operand loop: pops every operand above the
      * last comma. */
    method CollectUntilComma() returns (tokens: seq<Lexeme>)
      requires HasComma(item)
      modifies this`item
      ensures TakeUntilComma(old(item)) == Collected(item, tokens)
    {
      tokens := [];
      ghost var item0 := item;
      while item[|item| - 1].text != ","
        invariant HasComma(item) && CommaFrom(item0, []) == CommaFrom(item, tokens)
        decreases |item|
      {
        assert HasComma(Pop(item)) by {
          var i :| 0 <= i < |item| && item[i].text == ",";
          assert i < |item| - 1 && Pop(item)[i] == item[i];
        }
        tokens := [item[|item| - 1]] + tokens;
        item := Pop(item);
      }
    }

    /** The binding loop of `Assemble`. */
    static method BindParameters(env: Env, lambdamap: map<string, Object>, args: seq<string>, tokens: seq<Lexeme>, size: nat)
      returns (b: Bound)
      requires ArgsReadable(args, size) && BindDefined(env, lambdamap, args, tokens, size)
      ensures b == BindRun(env, lambdamap, args, tokens, size)
    {
      b := Bound(map[], None);
      var count := 0;
      while count < size
        invariant count <= size && b == BindRun(env, lambdamap, args, tokens, count)
      {
        BindRunStep(env, lambdamap, args, tokens, count);
        b := BindParameter(env, lambdamap, args, tokens, count, b);
        count := count + 1;
      }
    }

    /** One pass of the binding loop. */
    static method BindParameter(env: Env, lambdamap: map<string, Object>, args: seq<string>, tokens: seq<Lexeme>, count: nat, b0: Bound)
      returns (b: Bound)
      requires ArgsReadable(args, count + 1) && BindDefined(env, lambdamap, args, tokens, count + 1)
      ensures b == BindStep(env, lambdamap, args, tokens, count, b0)
    {
      b := b0;
      var name := ArgName(args[count]);
      if |tokens| - 1 < count {
        b := b.(values := MapInsert(b.values, name, EmptyObject()));
        return;
      }
      var tok := tokens[count];
      var temp := EmptyObject();
      if tok.kind == GenericToken {
        if args[count][0] == '&' {
          temp := GetObj(env, lambdamap, tok.text).value;
        } else if args[count][0] == '%' {
          temp := Literal(env, tok.text, TGeneric);
        } else {
          var ptr := GetObj(env, lambdamap, tok.text);
          if ptr.None? {
            b := b.(error := Some("Object not found - " + tok.text));
          } else {
            temp := ptr.value;
          }
        }
      } else {
        temp := Literal(env, tok.text, TokenTypeOf(tok.kind));
      }
      b := b.(values := MapInsert(b.values, name, temp));
    }

    /** `Assemble`: reduces the top of the operator deque. */
    method Assemble(env: Env, msg0: Message) returns (ok: bool, msg: Message)
      requires AssembleSpec(env, mode, index, disableSetEntry, State(), msg0).Some?
      modifies this`symbol, this`item, this`lambdamap, this`lambdaObjectCount
      ensures AssembleSpec(env, mode, index, disableSetEntry, old(State()), msg0) == Some((State(), msg, ok))
    {
      var top := symbol[|symbol| - 1].text;
      var id := GetHead(top);
      if id == StrNop {
        ok, msg := NopReduction(msg0);
      } else {
        var provider := Lookup(env, top);
        ok, msg := CalleeReduction(env, id, provider, msg0);
      }
    }

    /** The `__nop` path of `Assemble`. */
    method NopReduction(msg0: Message) returns (ok: bool, msg: Message)
      requires |symbol| > 0 && NopReduce(State(), msg0).Some?
      modifies this`symbol, this`item
      ensures NopReduce(old(State()), msg0) == Some((State(), msg, ok))
    {
      var res := item[|item| - 1];
      var discarded := CollectOperands(|item|);
      item := item + [res];
      symbol := Pop(symbol);
      return true, msg0;
    }

    /** `Assemble` once the callee is resolved. */
    method CalleeReduction(env: Env, id: string, provider: Provider, msg0: Message) returns (ok: bool, msg: Message)
      requires |symbol| > 0 && CalleeReduce(env, mode, index, disableSetEntry, State(), id, provider, msg0).Some?
      modifies this`symbol, this`item, this`lambdamap, this`lambdaObjectCount
      ensures CalleeReduce(env, mode, index, disableSetEntry, old(State()), id, provider, msg0) == Some((State(), msg, ok))
    {
      ghost var s0 := State();
      if !provider.Good() {
        msg := Combo(StrFatalError, CodeIllegalCall, "Activity not found - " + id);
        symbol := Pop(symbol);
        return false, msg;
      }
      var tokens;
      if !disableSetEntry {
        tokens := CollectOperands(provider.parameterSize);
      } else {
        tokens := CollectUntilComma();
      }
      assert Operands(provider, disableSetEntry, s0.item) == Some(Collected(item, tokens));
      ok, msg := Reduction(env, id, provider, tokens, msg0);
    }

    /** `Assemble` after the operands are off the deque. */
    method Reduction(env: Env, id: string, provider: Provider, tokens: seq<Lexeme>, msg0: Message) returns (ok: bool, msg: Message)
      requires |symbol| > 0 && Readable(provider)
      requires Reduce(env, mode, index, State(), id, provider, tokens, msg0).Some?
      modifies this`symbol, this`item, this`lambdamap, this`lambdaObjectCount
      ensures Reduce(env, mode, index, old(State()), id, provider, tokens, msg0) == Some((State(), msg, ok))
    {
      msg := msg0;
      var size := provider.parameterSize;
      if provider.mode == NormalParm && |tokens| != size {
        return false, Combo(StrFatalError, CodeIllegalParm, MsgCountMismatch);
      }
      if provider.mode == AutoFill && |tokens| < 1 {
        return false, Combo(StrFatalError, CodeIllegalParm, MsgNoParameter);
      }
      var b := BindParameters(env, lambdamap, provider.args, tokens, size);
      var values := AddExtras(env, id, provider, b.values);
      if b.error.Some? {
        return false, Combo(StrFatalError, CodeIllegalCall, b.error.value);
      }
      ok, msg := RunCallee(env, id, provider, values, msg0);
    }

    /** The bindings `Assemble` adds after the parameters. */
    method AddExtras(env: Env, id: string, provider: Provider, values0: map<string, Object>) returns (values: map<string, Object>)
      requires |symbol| > 0 && provider.Provider?
      requires Extras(env, State(), id, index, provider, values0).Some?
      modifies this`item
      ensures Extras(env, old(State()), id, index, provider, values0) == Some((State(), values))
    {
      values := values0;
      if id == StrFor {
        values := MapInsert(values, StrCodeSub, Literal(env, NatToString(index), TInteger));
      }
      match provider.priority {
        case FlagOperatorEntry =>
          values := MapInsert(values, StrOperator, Literal(env, symbol[|symbol| - 1].text, TSymbol));
        case FlagMethod =>
          var receiver := GetObj(env, lambdamap, item[|item| - 1].text).value;
          values := MapInsert(values, StrObject, receiver);
          item := Pop(item);
        case FlagNormalEntry =>
      }
    }

    /** Runs the callee as the mode allows and absorbs its message. */
    method RunCallee(env: Env, id: string, provider: Provider, values: map<string, Object>, msg0: Message) returns (ok: bool, msg: Message)
      requires |symbol| > 0
      modifies this`symbol, this`item, this`lambdamap, this`lambdaObjectCount
      ensures Finalize(env, mode, id, provider, old(State()), values, msg0) == (State(), msg, ok)
    {
      msg := Dispatch(env, mode, id, symbol[0].text, provider, values, msg0);
      if msg.code == CodeObject {
        var tempId := msg.detail + NatToString(lambdaObjectCount);
        item := item + [Lexeme(tempId, GenericToken)];
        lambdamap := MapInsert(lambdamap, tempId, msg.obj);
        lambdaObjectCount := lambdaObjectCount + 1;
      } else if msg.value == StrRedirect && (msg.code == CodeSuccess || msg.code == CodeFillingSign) {
        item := item + [Lexeme(msg.detail, env.dataType(msg.detail))];
      }
      ok := msg.value != StrFatalError && msg.value != StrWarning;
      symbol := Pop(symbol);
    }

    /** `RightBracket`: reduces back to the nearest `(`, drops it and reduces
      * the callee in front of it. */
    method RightBracket(env: Env, msg0: Message) returns (ok: bool, msg: Message)
      requires CloseGroupAssemble(env, mode, index, disableSetEntry, State(), msg0).Some?
      modifies this`symbol, this`item, this`lambdamap, this`lambdaObjectCount
      ensures CloseGroupAssemble(env, mode, index, disableSetEntry, old(State()), msg0) == Some((State(), msg, ok))
    {
      ok, msg := true, msg0;
      ghost var step := AssembleStep(env, mode, index, disableSetEntry);
      AssemblePops(env, mode, index, disableSetEntry);
      ghost var target := CloseGroup(step, State(), msg0);
      while symbol[|symbol| - 1].text != "("
        invariant |symbol| > 0 && CloseGroup(step, State(), msg) == target
        decreases |symbol|
      {
        ghost var before := State();
        ghost var m := msg;
        ok, msg := Assemble(env, msg);
        if !ok {
          return;
        }
        CloseGroupStep(step, before, m, (State(), msg, ok));
      }
      symbol := Pop(symbol);
      ok, msg := Assemble(env, msg);
    }
  }
}
