// Lookup tables of the first interpreter generation: generic tokens and
// operator codes, the entry registry and its resolution order, punctuation
// classes, truth values, operator priorities and the `id:type|size` tags the
// expression compiler puts on its operator stack.

module Parser {
  import opened Common
  import opened Objects
  import opened Analyzer

  // Names of the built-in generic entries. The header that defines them is
  // not part of this model: the keywords of the language are spelled as the
  // language spells them, the internal names get representative spellings,
  // and the model relies only on all of them being distinct.
  const StrNop: string := "__nop"
  const StrDef: string := "def"
  const StrRef: string := "__ref"
  const StrCodeSub: string := "__code_sub"
  const StrSub: string := "__sub"
  const StrBinOp: string := "__binop"
  const StrIf: string := "if"
  const StrElif: string := "elif"
  const StrEnd: string := "end"
  const StrElse: string := "else"
  const StrVar: string := "var"
  const StrSet: string := "__set"
  const StrWhile: string := "while"
  const StrFor: string := "for"
  const StrLeftSelfInc: string := "__lselfinc"
  const StrLeftSelfDec: string := "__lselfdec"
  const StrRightSelfInc: string := "__rselfinc"
  const StrRightSelfDec: string := "__rselfdec"
  const StrTrue: string := "true"
  const StrFalse: string := "false"

  /** The generic (keyword) entries; `Nul` marks a name that is none of them. */
  datatype BasicGenToken =
    | Nop | Def | Ref | CodeSub | Sub | BinOp | If | Elif | End | Else | Var | SetToken
    | While | For | LeftSelfInc | LeftSelfDec | RightSelfInc | RightSelfDec | Nul

  function GetGenericToken(src: string): BasicGenToken
  {
    if src == StrNop then Nop
    else if src == StrDef then Def
    else if src == StrRef then Ref
    else if src == StrCodeSub then CodeSub
    else if src == StrSub then Sub
    else if src == StrBinOp then BinOp
    else if src == StrIf then If
    else if src == StrElif then Elif
    else if src == StrEnd then End
    else if src == StrElse then Else
    else if src == StrVar then Var
    else if src == StrSet then SetToken
    else if src == StrWhile then While
    else if src == StrFor then For
    else if src == StrLeftSelfInc then LeftSelfInc
    else if src == StrLeftSelfDec then LeftSelfDec
    else if src == StrRightSelfInc then RightSelfInc
    else if src == StrRightSelfDec then RightSelfDec
    else Nul
  }

  /** The name of a generic entry; `Nul` has the empty name. */
  function GetGenTokenValue(token: BasicGenToken): string
  {
    match token
    case Nop => StrNop
    case Def => StrDef
    case Ref => StrRef
    case CodeSub => StrCodeSub
    case Sub => StrSub
    case BinOp => StrBinOp
    case If => StrIf
    case Elif => StrElif
    case End => StrEnd
    case Else => StrElse
    case Var => StrVar
    case SetToken => StrSet
    case While => StrWhile
    case For => StrFor
    case LeftSelfInc => StrLeftSelfInc
    case LeftSelfDec => StrLeftSelfDec
    case RightSelfInc => StrRightSelfInc
    case RightSelfDec => StrRightSelfDec
    case Nul => ""
  }

  /** Naming a generic token and classifying the name are inverse. */
  lemma GenericTokenRoundTrip(token: BasicGenToken)
    ensures token != Nul ==> GetGenericToken(GetGenTokenValue(token)) == token
  {
  }

  /** A name classified as a generic token is that token's name; the empty
    * name is no generic token. */
  lemma GenericNameRoundTrip(src: string)
    ensures GetGenericToken(src) != Nul ==> GetGenTokenValue(GetGenericToken(src)) == src
    ensures GetGenericToken("") == Nul
  {
  }

  datatype OperatorCode =
    | Add | Subtract | Multiply | Divide | Equal | Is | LessOrEqual | MoreOrEqual | NotEqual
    | More | Less | SelfInc | SelfDec | OpNul

  const OperatorSymbols: set<string> :=
    {"+", "-", "*", "/", "=", "==", "<=", ">=", "!=", ">", "<", "++", "--"}

  function GetOperatorCode(src: string): (r: OperatorCode)
    ensures r != OpNul <==> src in OperatorSymbols
    ensures r == Equal <==> src == "="
    ensures r in {SelfInc, SelfDec} <==> src in {"++", "--"}
  {
    if src == "+" then Add
    else if src == "-" then Subtract
    else if src == "*" then Multiply
    else if src == "/" then Divide
    else if src == "=" then Equal
    else if src == "==" then Is
    else if src == "<=" then LessOrEqual
    else if src == ">=" then MoreOrEqual
    else if src == "!=" then NotEqual
    else if src == ">" then More
    else if src == "<" then Less
    else if src == "++" then SelfInc
    else if src == "--" then SelfDec
    else OpNul
  }

  /** A registered activity: id, the receiver type it is specific to, its
    * parameter count, argument mode, entry flag and parameter names.
    * `NoProvider` is the default-constructed provider, which is not good. */
  datatype Provider =
    | NoProvider
    | Provider(id: string, specificType: string, parameterSize: nat, mode: ArgumentMode,
               priority: EntryFlag, args: seq<string>)
  {
    predicate Good() { Provider? }

    /** The default provider is taken to report no parameters. */
    function ParameterSize(): nat { if Provider? then parameterSize else 0 }
  }

  function GetGenericProvider(gen: map<BasicGenToken, Provider>, token: BasicGenToken): (p: Provider)
    ensures token in gen ==> p == gen[token]
    ensures token !in gen ==> !p.Good()
  {
    if token in gen then gen[token] else NoProvider
  }

  /** Does registered provider `p` answer to this id, type and size?
    * A size of -1 accepts any parameter count. */
  predicate Matches(p: Provider, id: string, specificType: string, size: int)
  {
    p.Provider? && p.id == id && p.specificType == specificType && (size == -1 || size == p.parameterSize)
  }

  /** The scan of the entry base: the first matching provider, in
    * registration order. */
  function FirstMatch(base: seq<Provider>, id: string, specificType: string, size: int): Provider
    decreases |base|
  {
    if base == [] then NoProvider
    else if Matches(base[0], id, specificType, size) then base[0]
    else FirstMatch(base[1..], id, specificType, size)
  }

  /** The search finds a provider exactly when one matches, and then the
    * earliest registered one. */
  lemma {:induction false} FirstMatchSpec(base: seq<Provider>, id: string, specificType: string, size: int)
    ensures var r := FirstMatch(base, id, specificType, size);
            (r.Good() <==> exists i :: 0 <= i < |base| && Matches(base[i], id, specificType, size))
            && (r.Good() ==> exists i :: 0 <= i < |base| && r == base[i] && Matches(base[i], id, specificType, size)
                                         && forall j :: 0 <= j < i ==> !Matches(base[j], id, specificType, size))
    decreases |base|
  {
    if base != [] && !Matches(base[0], id, specificType, size) {
      FirstMatchSpec(base[1..], id, specificType, size);
      FirstMatchShift(base, id, specificType, size, FirstMatch(base[1..], id, specificType, size));
    }
  }

  lemma FirstMatchShift(base: seq<Provider>, id: string, specificType: string, size: int, r: Provider)
    requires |base| > 0 && !Matches(base[0], id, specificType, size)
    requires r.Good() <==> exists i :: 0 <= i < |base| - 1 && Matches(base[1..][i], id, specificType, size)
    requires r.Good() ==> exists i :: 0 <= i < |base| - 1 && r == base[1..][i] && Matches(base[1..][i], id, specificType, size)
                                     && forall j :: 0 <= j < i ==> !Matches(base[1..][j], id, specificType, size)
    ensures r.Good() <==> exists i :: 0 <= i < |base| && Matches(base[i], id, specificType, size)
    ensures r.Good() ==> exists i :: 0 <= i < |base| && r == base[i] && Matches(base[i], id, specificType, size)
                                     && forall j :: 0 <= j < i ==> !Matches(base[j], id, specificType, size)
  {
    if r.Good() {
      var k :| 0 <= k < |base| - 1 && r == base[1..][k] && Matches(base[1..][k], id, specificType, size)
               && forall j :: 0 <= j < k ==> !Matches(base[1..][j], id, specificType, size);
      forall j | 0 <= j < k + 1
        ensures !Matches(base[j], id, specificType, size)
      {
        if j > 0 { assert base[j] == base[1..][j - 1]; }
      }
    } else {
      forall i | 0 <= i < |base|
        ensures !Matches(base[i], id, specificType, size)
      {
        if i > 0 { assert base[i] == base[1..][i - 1]; }
      }
    }
  }

  /** Every keyword starts with a lower-case letter or an underscore. */
  lemma KeywordStart(src: string)
    requires GetGenericToken(src) != Nul
    ensures |src| > 0 && ('a' <= src[0] <= 'z' || src[0] == '_')
  {
  }

  /** No operator spelling is a keyword. */
  lemma OperatorNotKeyword(id: string)
    requires id in OperatorSymbols
    ensures GetGenericToken(id) == Nul
  {
    assert |id| > 0 && id[0] in "+-*/=<>!";
    if GetGenericToken(id) != Nul {
      KeywordStart(id);
    }
  }

  /** Resolves a name to a provider: keywords go to their generic provider,
    * `=` to the `set` provider, every other operator to the `binop`
    * provider, and anything else to the first registered match. */
  function Order(gen: map<BasicGenToken, Provider>, base: seq<Provider>, id: string, specificType: string, size: int): Provider
    decreases if GetGenericToken(id) == Nul then 1 else 0
  {
    var basic := GetGenericToken(id);
    if basic != Nul then GetGenericProvider(gen, basic)
    else
      var op := GetOperatorCode(id);
      if op == Equal then Order(gen, base, StrSet, TypeIdNull, -1)
      else if op != OpNul then Order(gen, base, StrBinOp, TypeIdNull, -1)
      else FirstMatch(base, id, specificType, size)
  }

  /** The three ways `Order` resolves a name, and what happens when nothing matches. */
  lemma OrderResolution(gen: map<BasicGenToken, Provider>, base: seq<Provider>, id: string, specificType: string, size: int)
    ensures GetGenericToken(id) != Nul ==>
              Order(gen, base, id, specificType, size) == GetGenericProvider(gen, GetGenericToken(id))
    ensures id == "=" ==> Order(gen, base, id, specificType, size) == GetGenericProvider(gen, SetToken)
    ensures id in OperatorSymbols && id != "=" ==>
              Order(gen, base, id, specificType, size) == GetGenericProvider(gen, BinOp)
    ensures GetGenericToken(id) == Nul && id !in OperatorSymbols ==>
              Order(gen, base, id, specificType, size) == FirstMatch(base, id, specificType, size)
    ensures GetGenericToken(id) == Nul && id !in OperatorSymbols ==>
              (Order(gen, base, id, specificType, size).Good() <==>
                 exists i :: 0 <= i < |base| && Matches(base[i], id, specificType, size))
  {
    assert GetGenericToken(StrSet) == SetToken;
    assert GetGenericToken(StrBinOp) == BinOp;
    if id in OperatorSymbols {
      OperatorNotKeyword(id);
    }
    FirstMatchSpec(base, id, specificType, size);
  }

  /** How many operands the operator or activity `id` consumes. */
  function GetRequiredCount(gen: map<BasicGenToken, Provider>, base: seq<Provider>, id: string): nat
  {
    var op := GetOperatorCode(id);
    if op == Equal then Order(gen, base, StrSet, TypeIdNull, -1).ParameterSize()
    else if op != OpNul then Order(gen, base, StrBinOp, TypeIdNull, -1).ParameterSize()
    else
      var provider := Order(gen, base, id, TypeIdNull, -1);
      if provider.Good() then provider.ParameterSize() else 0
  }

  /** `=` takes the arity of the `set` provider, every other operator that
    * of the `binop` provider, and a name that resolves to nothing takes none. */
  lemma RequiredCountSpec(gen: map<BasicGenToken, Provider>, base: seq<Provider>, id: string)
    ensures var n := GetRequiredCount(gen, base, id);
            (id == "=" ==> n == GetGenericProvider(gen, SetToken).ParameterSize())
            && (id in OperatorSymbols && id != "=" ==> n == GetGenericProvider(gen, BinOp).ParameterSize())
            && (id !in OperatorSymbols && !Order(gen, base, id, TypeIdNull, -1).Good() ==> n == 0)
  {
    OrderResolution(gen, base, StrSet, TypeIdNull, -1);
    OrderResolution(gen, base, StrBinOp, TypeIdNull, -1);
  }

  /** `base` with its first element equal to `temp` removed, if any. */
  function RemoveFirst(base: seq<Provider>, temp: Provider): seq<Provider>
  {
    if base == [] then []
    else if base[0] == temp then base[1..]
    else [base[0]] + RemoveFirst(base[1..], temp)
  }

  /** Removing by template takes out exactly one occurrence, the first, and
    * keeps every other provider in order. */
  lemma {:induction false} RemoveFirstSpec(base: seq<Provider>, temp: Provider)
    ensures temp !in base ==> RemoveFirst(base, temp) == base
    ensures temp in base ==> exists i :: 0 <= i < |base| && base[i] == temp && temp !in base[..i]
                                        && RemoveFirst(base, temp) == base[..i] + base[i + 1..]
    ensures multiset(RemoveFirst(base, temp)) + (if temp in base then multiset{temp} else multiset{}) == multiset(base)
  {
    if temp !in base {
      RemoveAbsent(base, temp);
    } else {
      var i := FirstIndex(base, temp);
      RemoveFirstAt(base, temp, i);
      assert base == base[..i] + [temp] + base[i + 1..];
    }
  }

  lemma {:induction false} RemoveAbsent(base: seq<Provider>, temp: Provider)
    requires temp !in base
    ensures RemoveFirst(base, temp) == base
  {
    if base != [] {
      RemoveAbsent(base[1..], temp);
      assert base == [base[0]] + base[1..];
    }
  }

  function FirstIndex(base: seq<Provider>, temp: Provider): (i: nat)
    requires temp in base
    ensures i < |base| && base[i] == temp && temp !in base[..i]
  {
    if base[0] == temp then 0
    else
      var k := FirstIndex(base[1..], temp);
      assert base[..k + 1] == [base[0]] + base[1..][..k];
      k + 1
  }

  /** The process-wide entry registry: the ordered entry base and the map of
    * generic providers. Lookups are the pure functions above applied to its
    * current contents. */
  class EntryRegistry {
    var base: seq<Provider>
    var genBase: map<BasicGenToken, Provider>

    constructor ()
      ensures base == [] && genBase == map[]
    {
      base := [];
      genBase := map[];
    }

    /** `Inject`: registers a provider after all earlier ones. */
    method Inject(temp: Provider)
      modifies this`base
      ensures base == old(base) + [temp]
    {
      base := base + [temp];
    }

    /** `LoadGenProvider`: `std::map::insert` keeps an existing provider. */
    method LoadGenProvider(token: BasicGenToken, temp: Provider)
      modifies this`genBase
      ensures token in old(genBase) ==> genBase == old(genBase)
      ensures token !in old(genBase) ==> genBase == old(genBase)[token := temp]
    {
      if token !in genBase {
        genBase := genBase[token := temp];
      }
    }

    /** `RemoveByTemplate`: scans for the first provider equal to the
      * template and erases it. */
    method RemoveByTemplate(temp: Provider)
      modifies this`base
      ensures base == RemoveFirst(old(base), temp)
    {
      var i := 0;
      while i < |base| && base[i] != temp
        invariant 0 <= i <= |base|
        invariant temp !in base[..i]
      {
        i := i + 1;
      }
      if i < |base| {
        RemoveFirstAt(base, temp, i);
        base := base[..i] + base[i + 1..];
      } else {
        assert base[..i] == base;
        RemoveFirstSpec(base, temp);
      }
    }
  }

  lemma {:induction false} RemoveFirstAt(base: seq<Provider>, temp: Provider, i: nat)
    requires i < |base| && base[i] == temp && temp !in base[..i]
    ensures RemoveFirst(base, temp) == base[..i] + base[i + 1..]
  {
    if i > 0 {
      assert base[1..][..i - 1] == base[1..i];
      assert temp !in base[1..][..i - 1];
      RemoveFirstAt(base[1..], temp, i - 1);
      assert base[..i] == [base[0]] + base[1..][..i - 1];
    }
  }

  /** Punctuation classes of the expression compiler. */
  datatype BasicToken =
    | TokenEqual | TokenComma | TokenLeftSqrBracket | TokenDot | TokenColon | TokenLeftBracket
    | TokenRightSqrBracket | TokenRightBracket | TokenSelfOp | TokenOthers

  function GetBasicToken(src: string): (t: BasicToken)
    ensures t == TokenOthers <==> src !in {"=", ",", "[", ".", ":", "(", "]", ")", "++", "--"}
    ensures t == TokenSelfOp <==> src in {"++", "--"}
  {
    if src == "=" then TokenEqual
    else if src == "," then TokenComma
    else if src == "[" then TokenLeftSqrBracket
    else if src == "." then TokenDot
    else if src == ":" then TokenColon
    else if src == "(" then TokenLeftBracket
    else if src == "]" then TokenRightSqrBracket
    else if src == ")" then TokenRightBracket
    else if src == "++" then TokenSelfOp
    else if src == "--" then TokenSelfOp
    else TokenOthers
  }

  /** Truth value of a message value or a literal: the false literal, "0"
    * and the empty string are false, everything else is true. */
  function GetBooleanValue(src: string): (b: bool)
    ensures b <==> src !in {StrFalse, "0", ""}
    ensures src == StrTrue ==> b
  {
    if src == StrTrue then true
    else if src == StrFalse then false
    else if src == "0" || src == "" then false
    else true
  }

  /** Binding strength of an operator; assignment binds loosest. */
  function GetPriority(target: string): int
  {
    if target == "=" || target == "var" then 0
    else if target == "==" || target == ">=" || target == "<=" || target == "!=" || target == "<" || target == ">" then 1
    else if target == "+" || target == "-" then 2
    else if target == "*" || target == "/" || target == "\\" then 3
    else 4
  }

  /** The five binding levels: assignment, comparison, additive,
    * multiplicative, and everything else. */
  lemma PriorityLevels(target: string)
    ensures var p := GetPriority(target);
            0 <= p <= 4
            && (p == 0 <==> target in {"=", "var"})
            && (p == 1 <==> target in {"==", ">=", "<=", "!=", "<", ">"})
            && (p == 2 <==> target in {"+", "-"})
            && (p == 3 <==> target in {"*", "/", "\\"})
            && (p < 4 <==> target in {"=", "var", "==", ">=", "<=", "!=", "<", ">", "+", "-", "*", "/", "\\"})
  {
  }

  /** The id part of an operator-stack tag: everything before the first ':'. */
  function GetHead(target: string): (r: string)
    ensures |r| <= |target| && r == target[..|r|] && ':' !in r
    ensures |r| < |target| ==> target[|r|] == ':'
    decreases |target|
  {
    if target == [] || target[0] == ':' then []
    else [target[0]] + GetHead(target[1..])
  }

  /** Every character except ':' from `s`. */
  function DropColons(s: string): (r: string)
    ensures ':' !in r && |r| <= |s|
  {
    if s == [] then []
    else (if s[0] == ':' then [] else [s[0]]) + DropColons(s[1..])
  }

  /** The text `Spilt` collects: the characters after the first ':' with
    * every further ':' dropped; empty when there is no ':'. */
  function SpiltText(target: string): string
  {
    if target == [] then []
    else if target[0] == ':' then DropColons(target[1..])
    else SpiltText(target[1..])
  }

  /** A tag splits at its first ':' into the head and the rest, and the
    * collected text is that rest without colons. */
  lemma {:induction false} HeadAndTail(target: string)
    ensures ':' in target ==> target == GetHead(target) + ":" + target[|GetHead(target)| + 1..]
                              && SpiltText(target) == DropColons(target[|GetHead(target)| + 1..])
    ensures ':' !in target ==> GetHead(target) == target && SpiltText(target) == ""
  {
    if target != [] && target[0] != ':' {
      HeadAndTail(target[1..]);
      assert ':' in target ==> ':' in target[1..];
    }
  }

  /** A vector of tag fields: the text split at each '|'. `Kit::BuildStringVector`
    * is not part of this model; the tags it splits are written
    * `type|size`, so the split is taken to be at '|', and the empty text
    * gives no fields. */
  function BuildStringVector(s: string): (r: seq<string>)
    ensures s == "" <==> r == []
    ensures forall i :: 0 <= i < |r| ==> '|' !in r[i]
  {
    if s == "" then [] else SplitBars(s, "")
  }

  function SplitBars(s: string, acc: string): (r: seq<string>)
    requires '|' !in acc
    ensures |r| >= 1
    ensures forall i :: 0 <= i < |r| ==> '|' !in r[i]
    decreases |s|
  {
    if s == [] then [acc]
    else if s[0] == '|' then [acc] + SplitBars(s[1..], "")
    else SplitBars(s[1..], acc + [s[0]])
  }

  /** Fields joined back with '|'. */
  function JoinBars(fields: seq<string>): string
  {
    if fields == [] then "" else if |fields| == 1 then fields[0] else fields[0] + "|" + JoinBars(fields[1..])
  }

  /** Splitting at '|' and joining with '|' gives the text back. */
  lemma {:induction false} SplitJoinRoundTrip(s: string)
    ensures JoinBars(BuildStringVector(s)) == s
  {
    if s != "" {
      SplitBarsJoin(s, "");
    }
  }

  lemma {:induction false} SplitBarsJoin(s: string, acc: string)
    requires '|' !in acc
    ensures JoinBars(SplitBars(s, acc)) == acc + s
    decreases |s|
  {
    if s == [] {
    } else if s[0] == '|' {
      SplitBarsJoin(s[1..], "");
      var rest := SplitBars(s[1..], "");
      assert SplitBars(s, acc) == [acc] + rest;
      assert ([acc] + rest)[1..] == rest;
      assert s == "|" + s[1..];
    } else {
      SplitBarsJoin(s[1..], acc + [s[0]]);
      assert acc + [s[0]] + s[1..] == acc + s;
    }
  }

  /** `Spilt`: the fields of an operator-stack tag after its id. */
  function Spilt(target: string): (r: seq<string>)
    ensures ':' !in target ==> r == []
    ensures ':' in target ==> JoinBars(r) == DropColons(target[|GetHead(target)| + 1..])
    ensures forall i :: 0 <= i < |r| ==> '|' !in r[i]
  {
    HeadAndTail(target);
    SplitJoinRoundTrip(SpiltText(target));
    BuildStringVector(SpiltText(target))
  }
}
