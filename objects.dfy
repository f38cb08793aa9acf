// Runtime values shared by the three interpreter generations: token kinds,
// execution modes, objects and the stack of scopes that holds named objects.

module Objects {
  import opened Common

  /** Lexical kind a token or an object carries (`T_NUL`, `T_GENERIC`, ...). */
  datatype TokenType = TNul | TGeneric | TString | TInteger | TFloat | TBoolean | TSymbol | TBlank

  /** The lexical class `Kit::GetDataType` gives a token (`kGenericToken`,
    * `kTypeSymbol`, ...). */
  datatype DataType = GenericToken | TypeSymbol | TypeBlank | TypeNull | TypeInteger | TypeFloat | TypeString | TypeBoolean

  /** The token type an object made from a token of that class carries. */
  function TokenTypeOf(d: DataType): (t: TokenType)
    ensures d == GenericToken <==> t == TGeneric
    ensures d == TypeNull <==> t == TNul
  {
    match d
    case GenericToken => TGeneric
    case TypeSymbol => TSymbol
    case TypeBlank => TBlank
    case TypeNull => TNul
    case TypeInteger => TInteger
    case TypeFloat => TFloat
    case TypeString => TString
    case TypeBoolean => TBoolean
  }

  /** Execution mode of a control block (`kModeNormal`, `kModeCondition`, ...). */
  datatype Mode = Normal | Condition | NextCondition | Cycle | CycleJump | Case | CaseJump | ClosureCatching

  /** How a callee takes its arguments: exact count, trailing defaults, or variadic tail. */
  datatype ArgumentMode = NormalParm | AutoFill | AutoSize

  // Type ids of the built-in object kinds. The header that defines them is
  // not part of this model; the spellings below are representatives and the
  // model relies only on their being distinct.
  const TypeIdNull: string := "null"
  const TypeIdRawString: string := "string"
  const TypeIdString: string := "str"
  const TypeIdWideString: string := "wstr"
  const TypeIdArrayBase: string := "array"
  const TypeIdFunction: string := "function"

  /** The generic tokens that head commands of the third generation's
    * instruction stream (`kTokenIf`, ..., `kTokenSegment`); `IrOther`
    * stands for every other token, by its numeric value. */
  datatype IrToken =
    | IrIf | IrElif | IrElse | IrEnd | IrWhile | IrCase | IrWhen | IrFn | IrReturn | IrSegment
    | IrOther(code: int)

  /** A command of the third generation's instruction stream: a segment
    * marker carrying the source line and the token of the statement it
    * opens, or a request headed by a token. */
  datatype Command = Segment(origin: SizeT, last: IrToken) | Request(head: IrToken)
  {
    function Head(): IrToken { if Segment? then IrSegment else head }
  }

  /** What an object holds. An array's elements live in one shared vector,
    * and a reference to an element names that vector and the slot. A
    * function of the third generation holds its name, parameters, argument
    * mode, least argument count (when one was set) and body. */
  datatype Payload =
    | NoPayload
    | Text(text: string)
    | Elements(base: array<Object>)
    | ElementRef(vector: array<Object>, slot: nat)
    | Function(id: string, params: seq<string>, mode: ArgumentMode, minArgs: Option<SizeT>, body: seq<Command>)

  /** An interpreter object: its type id, method list, payload, token kind
    * and read-only flag. */
  datatype Object = Object(typeId: string, methods: string, payload: Payload, tokenType: TokenType, readOnly: bool)

  /** `Object()`: the empty object. */
  function EmptyObject(): (o: Object)
    ensures o.typeId == TypeIdNull && o.payload == NoPayload && o.tokenType == TNul && !o.readOnly
  {
    Object(TypeIdNull, "", NoPayload, TNul, false)
  }

  /** A literal string object as the interpreters make them for tokens. */
  function TextObject(text: string, tokenType: TokenType): Object
  {
    Object(TypeIdRawString, "", Text(text), tokenType, false)
  }

  predicate IsArray(o: Object) { o.payload.Elements? }

  /** One scope: the named objects of one block or call. */
  type Scope = map<string, Object>

  // The values a message carries in its value slot besides literal results.
  // Their spellings live in a header that is not part of this model; the
  // model relies only on their being distinct from each other and from the
  // boolean literals.
  const StrEmpty: string := ""
  const StrRedirect: string := "__redirect"
  const StrFatalError: string := "__fatal"
  const StrWarning: string := "__warning"
  const StrStopSign: string := "__stop"
  const StrPlaceHolder: string := "__placeholder"

  /** The parameter name under which a method receives its receiver. */
  const StrObject: string := "__object"

  /** The parameter name under which a variadic callee receives the count
    * of its variadic arguments. */
  const StrVaSize: string := "__size"

  /** Result codes of a message (`kCodeSuccess`, `kCodeIllegalCall`, ...). */
  datatype MessageCode =
    | CodeSuccess | CodeIllegalCall | CodeIllegalParm | CodeIllegalSymbol | CodeBadExpression
    | CodeObject | CodeFillingSign | CodeConditionRoot | CodeConditionBranch | CodeConditionLeaf
    | CodeHeadSign | CodeTailSign | CodeHeadPlaceholder | CodeContinue | CodeBreak | CodeCase | CodeWhen
    | CodeOther(n: int)

  /** A message: value (a literal result or one of the markers above), code,
    * detail text and, for `CodeObject`, the object produced. */
  datatype Message = Message(value: string, code: MessageCode, detail: string, obj: Object)

  /** What running one line gives: its result and the scopes as the line
    * leaves them (the objects it created, changed or disposed). */
  datatype LineRun = LineRun(result: Message, scopes: seq<Scope>)

  /** `msg.combo(value, code, detail)` on a fresh message. */
  function Combo(value: string, code: MessageCode, detail: string): (m: Message)
    ensures m.value == value && m.code == code && m.detail == detail
  {
    Message(value, code, detail, EmptyObject())
  }

  /** `Message()`: an empty successful message. */
  function NewMessage(): (m: Message)
    ensures m.value == StrEmpty && m.code == CodeSuccess && m.detail == StrEmpty
  {
    Combo(StrEmpty, CodeSuccess, StrEmpty)
  }

  /** Looks `name` up from the innermost scope outwards. */
  function FindObject(scopes: seq<Scope>, name: string): Option<Object>
    decreases |scopes|
  {
    if scopes == [] then None
    else if name in scopes[|scopes| - 1] then Some(scopes[|scopes| - 1][name])
    else FindObject(scopes[..|scopes| - 1], name)
  }

  /** A lookup finds `name` exactly when some scope holds it, and then
    * finds the binding of the innermost such scope. */
  lemma {:induction false} FindObjectSpec(scopes: seq<Scope>, name: string)
    ensures FindObject(scopes, name).Some? <==> exists i :: 0 <= i < |scopes| && name in scopes[i]
    ensures FindObject(scopes, name).Some? ==>
              exists i :: 0 <= i < |scopes| && name in scopes[i] && FindObject(scopes, name).value == scopes[i][name]
                          && forall j :: i < j < |scopes| ==> name !in scopes[j]
    decreases |scopes|
  {
    if scopes != [] && name !in scopes[|scopes| - 1] {
      var inner := scopes[..|scopes| - 1];
      FindObjectSpec(inner, name);
      if FindObject(inner, name).Some? {
        var i :| 0 <= i < |inner| && name in inner[i] && FindObject(inner, name).value == inner[i][name]
                 && forall j :: i < j < |inner| ==> name !in inner[j];
        assert scopes[i] == inner[i];
        assert forall j :: i < j < |scopes| ==> name !in scopes[j] by {
          forall j | i < j < |scopes|
            ensures name !in scopes[j]
          {
            if j < |scopes| - 1 {
              assert scopes[j] == inner[j];
            }
          }
        }
      } else {
        forall i | 0 <= i < |scopes|
          ensures name !in scopes[i]
        {
          if i < |scopes| - 1 {
            assert scopes[i] == inner[i];
          }
        }
      }
    }
  }

  /** Where a bound name takes its value from: the i-th call argument (the
    * entry `arg` followed by `i` in decimal; an index no caller supplied,
    * such as -1, names an entry that is absent), an empty object, or the
    * count of variadic arguments. */
  datatype Source = FromArg(index: int) | EmptyValue | Count(n: nat)

  /** Name bindings in the order the source inserts them. */
  type Bindings = seq<(string, Source)>

  /** `std::map::insert`: a key already bound keeps its value. */
  function MapInsert<K, V>(m: map<K, V>, key: K, value: V): (r: map<K, V>)
    ensures r.Keys == m.Keys + {key}
  {
    if key in m then m else m[key := value]
  }

  /** The map the bindings build when inserted in order. */
  function BindingMap<V>(b: seq<(string, V)>): map<string, V>
  {
    if b == [] then map[] else MapInsert(BindingMap(b[..|b| - 1]), b[|b| - 1].0, b[|b| - 1].1)
  }

  /** Every bound name is a key, and a name takes the source of its first
    * binding: later bindings of the same name are ignored. */
  lemma {:induction false} BindingMapFirstWins<V>(b: seq<(string, V)>, i: nat)
    requires i < |b|
    requires forall j :: 0 <= j < i ==> b[j].0 != b[i].0
    ensures b[i].0 in BindingMap(b) && BindingMap(b)[b[i].0] == b[i].1
  {
    var p := b[..|b| - 1];
    if i < |b| - 1 {
      assert b[i] == p[i];
      BindingMapFirstWins(p, i);
    } else {
      BindingMapKeys(p);
      forall j | 0 <= j < |p|
        ensures p[j].0 != b[i].0
      {
        assert p[j] == b[j];
      }
    }
  }

  lemma {:induction false} BindingMapKeys<V>(b: seq<(string, V)>)
    ensures forall x :: x in BindingMap(b) <==> exists j :: 0 <= j < |b| && b[j].0 == x
  {
    if b != [] {
      var p := b[..|b| - 1];
      BindingMapKeys(p);
      forall x | x in BindingMap(b)
        ensures exists j :: 0 <= j < |b| && b[j].0 == x
      {
        if x in BindingMap(p) {
          var j :| 0 <= j < |p| && p[j].0 == x;
          assert b[j] == p[j];
        } else {
          assert b[|b| - 1].0 == x;
        }
      }
      forall x | exists j :: 0 <= j < |b| && b[j].0 == x
        ensures x in BindingMap(b)
      {
        var j :| 0 <= j < |b| && b[j].0 == x;
        if j < |b| - 1 {
          assert p[j] == b[j];
        }
      }
    }
  }
}
