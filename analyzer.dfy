// The instruction records of the analyzer: arguments with their kind and
// domain, instructions pairing a callee entry with its arguments, and the
// analyzer's observable state.

module Analyzer {
  import opened Objects

  /** Where an argument's value comes from (`AT_NORMAL`, `AT_OBJECT`, `AT_RET`, `AT_HOLDER`). */
  datatype ArgumentType = AtNormal | AtObject | AtRet | AtHolder

  /** The receiver an argument is looked up in. */
  datatype Domain = Domain(data: string, kind: ArgumentType)

  datatype Argument = Argument(data: string, kind: ArgumentType, tokenType: TokenType, domain: Domain)
  {
    /** A placeholder stands for a value that is filled in later. */
    predicate IsPlaceholder() { kind == AtHolder }
  }

  /** `Argument()`: an empty placeholder with a placeholder domain. */
  function DefaultArgument(): (a: Argument)
    ensures a.IsPlaceholder() && a.data == "" && a.tokenType == TNul
    ensures a.domain.kind == AtHolder
  {
    Argument("", AtHolder, TNul, Domain("", AtHolder))
  }

  /** `Argument(data, type, tokenType)`: stores the three values and gives
    * the argument no domain. */
  function MakeArgument(data: string, kind: ArgumentType, tokenType: TokenType): (a: Argument)
    ensures a.data == data && a.kind == kind && a.tokenType == tokenType
    ensures a.domain == Domain("", AtHolder)
    ensures a.IsPlaceholder() <==> kind == AtHolder
  {
    Argument(data, kind, tokenType, Domain("", AtHolder))
  }

  /** Calling convention flag of an entry. */
  datatype EntryFlag = FlagNormalEntry | FlagOperatorEntry | FlagMethod

  /** A callable entry: its id, parameter names, argument mode and flag.
    * `NoEntry` is the entry a failed lookup returns. */
  datatype Entry = NoEntry | Entry(id: string, params: seq<string>, mode: ArgumentMode, flag: EntryFlag)
  {
    predicate Good() { Entry? }
    predicate IsMethod() { Entry? && flag == FlagMethod }
  }

  /** An entry paired with its ordered arguments. */
  type Instruction = (Entry, seq<Argument>)

  datatype Token = Token(text: string, kind: TokenType)

  /** The observable state of an analyzer. */
  datatype AnalyzerState = AnalyzerState(health: bool, tokens: seq<Token>, index: nat, actionBase: seq<Instruction>)
  {
    predicate Good() { health }

    function GetIndex(): nat { index }

    function GetOutput(): seq<Instruction> { actionBase }

    /** The first token of the line (`front()`); the analyzer must hold
      * one. */
    function GetMainToken(): (t: Token)
      requires |tokens| > 0
      ensures t == tokens[0] && t in tokens
    {
      tokens[0]
    }
  }

  /** Tokens added after the first do not change the main token, so a
    * line's main token is fixed once its first token is. */
  lemma MainTokenStable(a: AnalyzerState, more: seq<Token>)
    requires |a.tokens| > 0
    ensures a.(tokens := a.tokens + more).GetMainToken() == a.GetMainToken()
  {
  }

  /** `Analyzer(index)`: not yet healthy, no tokens, no output. */
  function NewAnalyzer(index: nat): (a: AnalyzerState)
    ensures !a.Good() && a.GetIndex() == index && a.GetOutput() == [] && a.tokens == []
  {
    AnalyzerState(false, [], index, [])
  }

  /** `Analyzer()`: as `Analyzer(0)`. */
  function DefaultAnalyzer(): (a: AnalyzerState)
    ensures a == NewAnalyzer(0)
    ensures !a.Good() && a.GetIndex() == 0
  {
    AnalyzerState(false, [], 0, [])
  }
}
