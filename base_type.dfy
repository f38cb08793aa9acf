// The built-in types of the third interpreter generation that the core
// relies on: arrays (construction, copy, subscript, size), the subscript of
// a raw string, and the argument assembly of a call through a function
// object.

module BaseType {
  import opened Common
  import opened Objects
  import opened KisaragiWorker
  import opened KisaragiCalls

  const MsgIllegalSize: string := "Illegal array size."
  const MsgOutOfRange: string := "Subscript is out of range."
  const MsgArgumentError: string := "Argument error."

  /** `CALL_ASSERT(ent.Good(), ...)`: the message for a bad entry. */
  function BadEntry(id: string): string { "Bad entry - " + id + "." }

  /** What a built-in gives back: a value, a refusal with its message, or a
    * C++ exception escaping the built-in (`std::string::at` out of range). */
  datatype Reply<T> = Done(value: T) | Refused(msg: string) | Thrown

  // ---------------------------------------------------------------------
  // Arrays

  /** `IsStringFamily`: the raw, byte and wide strings. */
  predicate IsStringFamily(o: Object)
  {
    o.typeId == TypeIdRawString || o.typeId == TypeIdString || o.typeId == TypeIdWideString
  }

  /** The string family is wider than the strings a case-block accepts:
    * it adds the wide string. */
  lemma StringFamilyWidens(o: Object)
    ensures IsStringObject(o) ==> IsStringFamily(o)
    ensures IsStringFamily(o) && !IsStringObject(o) <==> o.typeId == TypeIdWideString
  {
  }

  /** One element as `CreateArrayCopy` and `ArrayConstructor` make it: the
    * per-type payload copy `copy` (`type::GetObjectCopy`, not part of this
    * model) with the type id, methods and token type of `o`, writable. */
  function Duplicate(o: Object, copy: Object -> Payload): Object
  {
    Object(o.typeId, o.methods, copy(o), o.tokenType, false)
  }

  /** `CreateArrayCopy`: a new vector of the same length whose element `i`
    * is a copy of element `i` of the source. */
  method CreateArrayCopy(source: array<Object>, copy: Object -> Payload) returns (dest: array<Object>)
    ensures fresh(dest) && dest.Length == source.Length
    ensures forall i :: 0 <= i < dest.Length ==> dest[i] == Duplicate(source[i], copy)
  {
    dest := new Object[source.Length];
    for i := 0 to source.Length
      invariant forall j :: 0 <= j < i ==> dest[j] == Duplicate(source[j], copy)
    {
      dest[i] := Duplicate(source[i], copy);
    }
  }

  /** The object every element of a new array is copied from: the initial
    * value made writable, or the empty object. */
  function Prototype(init: Option<Object>): Object
  {
    if init.Some? then init.value.(readOnly := false) else EmptyObject()
  }

  /** `ArrayConstructor` with its size read and its initial value looked
    * up: a size that is not positive is refused; otherwise the array holds
    * `size` copies of the prototype. `arrayMethods` is the method list of
    * arrays. */
  method ArrayConstructor(size: int, init: Option<Object>, arrayMethods: string, copy: Object -> Payload)
    returns (r: Reply<Object>)
    ensures r.Refused? <==> size <= 0
    ensures r.Refused? ==> r.msg == MsgIllegalSize
    ensures !r.Thrown?
    ensures r.Done? ==>
              && r.value.typeId == TypeIdArrayBase && r.value.methods == arrayMethods && !r.value.readOnly
              && r.value.payload.Elements? && fresh(r.value.payload.base)
              && r.value.payload.base.Length == size
              && forall i :: 0 <= i < size ==> r.value.payload.base[i] == Duplicate(Prototype(init), copy)
  {
    var proto := Prototype(init);
    if size <= 0 {
      return Refused(MsgIllegalSize);
    }
    var base := new Object[size];
    for count := 0 to size
      invariant forall i :: 0 <= i < count ==> base[i] == Duplicate(proto, copy)
    {
      base[count] := Duplicate(proto, copy);
    }
    return Done(Object(TypeIdArrayBase, arrayMethods, Elements(base), TNul, false));
  }

  /** The subscript of `ArrayGetElement` as written: only the upper bound
    * is checked, so a negative index reaches the vector. `None` is that
    * read outside the vector. */
  function ArrayGetElementAsWritten(base: array<Object>, idx: int): Option<Reply<Object>>
    reads base
  {
    if !(idx < base.Length) then Some(Refused(MsgOutOfRange))
    else if idx < 0 then None
    else Some(Done(Object(base[idx].typeId, base[idx].methods, ElementRef(base, idx), base[idx].tokenType, false)))
  }

  /** Any negative subscript passes the guard and reads outside the vector. */
  lemma NegativeSubscriptPasses(base: array<Object>, idx: int)
    requires idx < 0
    ensures ArrayGetElementAsWritten(base, idx).None?
  {
  }

  /** `ArrayGetElement` with both bounds checked: a reference to the
    * element, sharing the vector, or "Subscript is out of range.". */
  function ArrayGetElement(base: array<Object>, idx: int): (r: Reply<Object>)
    reads base
    ensures r.Done? <==> 0 <= idx < base.Length
    ensures !r.Done? ==> r == Refused(MsgOutOfRange)
    ensures r.Done? ==> r.value.payload == ElementRef(base, idx)
                        && r.value.payload.vector[r.value.payload.slot] == base[idx]
  {
    if 0 <= idx < base.Length then
      Done(Object(base[idx].typeId, base[idx].methods, ElementRef(base, idx), base[idx].tokenType, false))
    else Refused(MsgOutOfRange)
  }

  /** Wherever the code as written is defined, the checked subscript
    * agrees with it. */
  lemma SubscriptAgrees(base: array<Object>, idx: int)
    requires ArrayGetElementAsWritten(base, idx).Some?
    ensures ArrayGetElement(base, idx) == ArrayGetElementAsWritten(base, idx).value
  {
  }

  /** `ArrayGetSize`: the number of elements as decimal text. */
  function ArrayGetSize(base: array<Object>): (r: string)
    ensures AllDigits(r) && DecimalValue(r) == base.Length
  {
    DecimalRoundTrip(base.Length);
    NatToString(base.Length)
  }

  // ---------------------------------------------------------------------
  // Raw strings

  /** `RawStringGetElement` on the text `data` of the raw string: an index
    * not below `size - 1` is refused (the conversion of `size - 1` for an
    * empty text gives -1); a negative one makes `at` throw; otherwise the
    * character comes back as a one-character quoted literal. */
  function RawStringGetElement(data: string, idx: int): (r: Reply<string>)
    ensures r.Done? <==> 0 <= idx < |data| - 1
    ensures r.Thrown? <==> idx < 0 && idx < |data| - 1
    ensures r.Refused? ==> r.msg == MsgOutOfRange
    ensures r.Done? ==> |r.value| == 3 && r.value[1] == data[idx]
  {
    if !(idx < |data| - 1) then Refused(MsgOutOfRange)
    else if idx < 0 then Thrown
    else Done("'" + [data[idx]] + "'")
  }

  /** The element is a quoted literal: unquoting it gives the character. */
  lemma RawElementUnquotes(data: string, idx: int)
    requires RawStringGetElement(data, idx).Done?
    ensures IsQuoted(RawStringGetElement(data, idx).value)
    ensures ParseString(RawStringGetElement(data, idx).value) == [data[idx]]
  {
    var s := RawStringGetElement(data, idx).value;
    assert s == "'" + [data[idx]] + "'";
    assert s[1..|s| - 1] == [data[idx]];
  }

  /** The last character of a text is never reached: its index is refused. */
  lemma LastCharacterRefused(data: string)
    requires data != []
    ensures RawStringGetElement(data, |data| - 1) == Refused(MsgOutOfRange)
  {
  }

  // ---------------------------------------------------------------------
  // Argument assembly of `FunctionCall`

  /** How many arguments may fill parameters: all of them, less the
    * receiver a method takes as its last argument. */
  function Capacity(isMethod: bool, size: int): int
  {
    if isMethod then size - 1 else size
  }

  /** Parameter `i` bound to argument `i`, for the first `n` parameters. */
  function Positional(params: seq<string>, n: nat): (b: Bindings)
    requires n <= |params|
    ensures |b| == n
  {
    if n == 0 then [] else Positional(params, n - 1) + [(params[n - 1], FromArg(n - 1))]
  }

  lemma {:induction false} PositionalAt(params: seq<string>, n: nat, i: nat)
    requires i < n <= |params|
    ensures Positional(params, n)[i] == (params[i], FromArg(i))
  {
    if i < n - 1 {
      PositionalAt(params, n - 1, i);
    }
  }

  /** The receiver a method binds, argument `size - 1`. */
  function Receiver(isMethod: bool, size: int): Bindings
  {
    if isMethod then [(StrObject, FromArg(size - 1))] else []
  }

  /** The variadic arguments `head0`, `head1`, ..., the `j`-th bound to
    * argument `from + j`. */
  function Suffixed(head: string, from: nat, k: nat): (b: Bindings)
    ensures |b| == k
  {
    if k == 0 then [] else Suffixed(head, from, k - 1) + [(head + NatToString(k - 1), FromArg(from + k - 1))]
  }

  lemma {:induction false} SuffixedAt(head: string, from: nat, k: nat, j: nat)
    requires j < k
    ensures Suffixed(head, from, k)[j] == (head + NatToString(j), FromArg(from + j))
  {
    if j < k - 1 {
      SuffixedAt(head, from, k - 1, j);
    }
  }

  /** Whether `AssemblingForNormal` accepts: every parameter finds an
    * argument before the receiver. Surplus arguments are not refused. */
  predicate NormalFits(params: seq<string>, isMethod: bool, size: int)
  {
    |params| == 0 || |params| <= Capacity(isMethod, size)
  }

  /** The bindings `AssemblingForNormal` inserts: all parameters and the
    * receiver, or, when it refuses, the parameters bound before it stopped. */
  function NormalAssembly(params: seq<string>, isMethod: bool, size: int): Bindings
  {
    if NormalFits(params, isMethod, size) then Positional(params, |params|) + Receiver(isMethod, size)
    else Positional(params, if Capacity(isMethod, size) < 0 then 0 else Capacity(isMethod, size))
  }

  /** The bindings `AssemblingForAutoFilling` inserts: the parameters that
    * find an argument before the receiver, then the receiver. */
  function FillAssembly(params: seq<string>, isMethod: bool, size: int): Bindings
  {
    var cap := Capacity(isMethod, size);
    Positional(params, if cap < 0 then 0 else if cap < |params| then cap else |params|) + Receiver(isMethod, size)
  }

  /** The number of variadic arguments: those past the fixed parameters,
    * not counting the receiver. */
  function VariadicCount(params: seq<string>, isMethod: bool, size: int): nat
    requires params != []
  {
    var extra := Capacity(isMethod, size) - (|params| - 1);
    if extra < 0 then 0 else extra
  }

  /** The bindings `AssemblingForAutosized` inserts: all but the last
    * parameter positionally (whether or not an argument was supplied),
    * the remaining arguments under the last parameter's name numbered
    * from 0, their count as `__size`, then the receiver. */
  function VariadicAssembly(params: seq<string>, isMethod: bool, size: int): Bindings
    requires params != []
  {
    var fixed := |params| - 1;
    var k := VariadicCount(params, isMethod, size);
    Positional(params, fixed) + Suffixed(Last(params), fixed, k) + [(StrVaSize, Count(k))] + Receiver(isMethod, size)
  }

  /** `AssemblingForNormal`. */
  method AssemblingForNormal(params: seq<string>, isMethod: bool, size: int) returns (state: bool, b: Bindings)
    ensures state <==> NormalFits(params, isMethod, size)
    ensures b == NormalAssembly(params, isMethod, size)
  {
    b := [];
    var idx := 0;
    state := true;
    while idx < |params|
      invariant idx <= |params| && b == Positional(params, idx)
      invariant idx == 0 || idx <= Capacity(isMethod, size)
    {
      if idx >= size || (idx >= size - 1 && isMethod) {
        state := false;
        break;
      }
      b := b + [(params[idx], FromArg(idx))];
      idx := idx + 1;
    }
    if isMethod && state {
      b := b + [(StrObject, FromArg(size - 1))];
    }
  }

  /** `AssemblingForAutoFilling`: always accepts. */
  method AssemblingForAutoFilling(params: seq<string>, isMethod: bool, size: int) returns (state: bool, b: Bindings)
    ensures state && b == FillAssembly(params, isMethod, size)
  {
    b := [];
    var idx := 0;
    while idx < |params|
      invariant idx <= |params| && b == Positional(params, idx)
      invariant idx == 0 || idx <= Capacity(isMethod, size)
    {
      if idx >= size {
        break;
      }
      if idx >= size - 1 && isMethod {
        break;
      }
      b := b + [(params[idx], FromArg(idx))];
      idx := idx + 1;
    }
    if isMethod {
      b := b + [(StrObject, FromArg(size - 1))];
    }
    return true, b;
  }

  /** `AssemblingForAutosized`: always accepts. The last parameter names
    * the variadic arguments, so an entry without parameters is left
    * undefined by the source. */
  method AssemblingForAutosized(params: seq<string>, isMethod: bool, size: int) returns (state: bool, b: Bindings)
    requires params != []
    ensures state && b == VariadicAssembly(params, isMethod, size)
  {
    var head := Last(params);
    b := [];
    var idx := 0;
    while idx < |params| - 1
      invariant idx <= |params| - 1 && b == Positional(params, idx)
    {
      b := b + [(params[idx], FromArg(idx))];
      idx := idx + 1;
    }
    var vaSize := if isMethod then size - 1 else size;
    var count := 0;
    while idx < vaSize
      invariant idx == |params| - 1 + count
      invariant count <= VariadicCount(params, isMethod, size)
      invariant b == Positional(params, |params| - 1) + Suffixed(head, |params| - 1, count)
      decreases vaSize - idx
    {
      b := b + [(head + NatToString(count), FromArg(idx))];
      count := count + 1;
      idx := idx + 1;
    }
    b := b + [(StrVaSize, Count(count))];
    if isMethod {
      b := b + [(StrObject, FromArg(size - 1))];
    }
    return true, b;
  }

  /** `FunctionCall` as written, for an entry that is `good`: the
    * auto-fill case falls through into the normal one, so both insert
    * into the same map and the normal assembly decides. */
  method FunctionCallAsWritten(good: bool, id: string, params: seq<string>, mode: ArgumentMode, isMethod: bool, size: int)
    returns (r: Reply<Bindings>)
    requires mode == AutoSize ==> params != []
    ensures !good ==> r == Refused(BadEntry(id))
    ensures good && mode == AutoSize ==> r == Done(VariadicAssembly(params, isMethod, size))
    ensures good && mode == NormalParm ==>
              r == if NormalFits(params, isMethod, size) then Done(NormalAssembly(params, isMethod, size)) else Refused(MsgArgumentError)
    ensures good && mode == AutoFill ==>
              r == if NormalFits(params, isMethod, size)
                   then Done(FillAssembly(params, isMethod, size) + NormalAssembly(params, isMethod, size))
                   else Refused(MsgArgumentError)
  {
    if !good {
      return Refused(BadEntry(id));
    }
    var state: bool;
    var b: Bindings;
    match mode {
      case AutoSize =>
        state, b := AssemblingForAutosized(params, isMethod, size);
      case AutoFill =>
        var filled: Bindings;
        state, filled := AssemblingForAutoFilling(params, isMethod, size);
        state, b := AssemblingForNormal(params, isMethod, size);
        b := filled + b;
      case NormalParm =>
        state, b := AssemblingForNormal(params, isMethod, size);
    }
    if !state {
      return Refused(MsgArgumentError);
    }
    return Done(b);
  }

  /** The fall-through refuses every call of an auto-filling entry that
    * leaves a parameter to be filled: `array(5)` through `call`, say. */
  lemma AutoFillFallsThrough(params: seq<string>, isMethod: bool, size: int)
    requires 0 <= Capacity(isMethod, size) < |params|
    ensures !NormalFits(params, isMethod, size)
  {
  }

  /** `FunctionCall` with the auto-fill case ending where the next case
    * begins, as its own assembler intends: an auto-filling entry accepts
    * every call. */
  method FunctionCall(good: bool, id: string, params: seq<string>, mode: ArgumentMode, isMethod: bool, size: int)
    returns (r: Reply<Bindings>)
    requires mode == AutoSize ==> params != []
    ensures !good ==> r == Refused(BadEntry(id))
    ensures good && mode == AutoSize ==> r == Done(VariadicAssembly(params, isMethod, size))
    ensures good && mode == NormalParm ==>
              r == if NormalFits(params, isMethod, size) then Done(NormalAssembly(params, isMethod, size)) else Refused(MsgArgumentError)
    ensures good && mode == AutoFill ==> r == Done(FillAssembly(params, isMethod, size))
  {
    if !good {
      return Refused(BadEntry(id));
    }
    var state: bool;
    var b: Bindings;
    match mode {
      case AutoSize =>
        state, b := AssemblingForAutosized(params, isMethod, size);
      case AutoFill =>
        state, b := AssemblingForAutoFilling(params, isMethod, size);
      case NormalParm =>
        state, b := AssemblingForNormal(params, isMethod, size);
    }
    if !state {
      return Refused(MsgArgumentError);
    }
    return Done(b);
  }

  // ---------------------------------------------------------------------
  // What the bound map holds

  /** When the normal assembly accepts and the parameter names are
    * distinct, each parameter is bound to its own argument and a method's
    * receiver to the last argument. */
  lemma NormalBindsEach(params: seq<string>, isMethod: bool, size: int)
    requires NormalFits(params, isMethod, size) && Distinct(params) && StrObject !in params
    ensures forall i :: 0 <= i < |params| ==>
              params[i] in BindingMap(NormalAssembly(params, isMethod, size))
              && BindingMap(NormalAssembly(params, isMethod, size))[params[i]] == FromArg(i)
    ensures isMethod ==> StrObject in BindingMap(NormalAssembly(params, isMethod, size))
                         && BindingMap(NormalAssembly(params, isMethod, size))[StrObject] == FromArg(size - 1)
  {
    var b := NormalAssembly(params, isMethod, size);
    forall i | 0 <= i < |params|
      ensures params[i] in BindingMap(b) && BindingMap(b)[params[i]] == FromArg(i)
    {
      PositionalAt(params, |params|, i);
      assert b[i] == (params[i], FromArg(i));
      forall j | 0 <= j < i
        ensures b[j].0 != b[i].0
      {
        PositionalAt(params, |params|, j);
      }
      BindingMapFirstWins(b, i);
    }
    if isMethod {
      var n := |params|;
      assert b[n] == (StrObject, FromArg(size - 1));
      forall j | 0 <= j < n
        ensures b[j].0 != b[n].0
      {
        PositionalAt(params, n, j);
      }
      BindingMapFirstWins(b, n);
    }
  }

  /** Auto-filling binds parameter `i` to argument `i` exactly for the
    * parameters that find an argument before the receiver, and leaves the
    * others unbound. */
  lemma FillBindsPrefix(params: seq<string>, isMethod: bool, size: int)
    requires Distinct(params) && StrObject !in params
    ensures var cap := Capacity(isMethod, size);
            forall i :: 0 <= i < |params| ==>
              (params[i] in BindingMap(FillAssembly(params, isMethod, size)) <==> i < cap)
              && (i < cap ==> BindingMap(FillAssembly(params, isMethod, size))[params[i]] == FromArg(i))
  {
    forall i | 0 <= i < |params|
      ensures var b := BindingMap(FillAssembly(params, isMethod, size)); var cap := Capacity(isMethod, size);
              (params[i] in b <==> i < cap) && (i < cap ==> b[params[i]] == FromArg(i))
    {
      FillBindsAt(params, isMethod, size, i);
    }
  }

  /** `FillBindsPrefix` for parameter `i`. */
  lemma FillBindsAt(params: seq<string>, isMethod: bool, size: int, i: nat)
    requires Distinct(params) && StrObject !in params && i < |params|
    ensures var b := BindingMap(FillAssembly(params, isMethod, size)); var cap := Capacity(isMethod, size);
            (params[i] in b <==> i < cap) && (i < cap ==> b[params[i]] == FromArg(i))
  {
    var b := FillAssembly(params, isMethod, size);
    var cap := Capacity(isMethod, size);
    var n := if cap < 0 then 0 else if cap < |params| then cap else |params|;
    BindingMapKeys(b);
    if i < n {
      PositionalAt(params, n, i);
      forall j | 0 <= j < i
        ensures b[j].0 != b[i].0
      {
        PositionalAt(params, n, j);
      }
      BindingMapFirstWins(b, i);
    } else {
      forall j | 0 <= j < |b|
        ensures b[j].0 != params[i]
      {
        if j < n {
          PositionalAt(params, n, j);
        }
      }
    }
  }

  /** A variadic count name cannot clash with a numbered argument name:
    * those end in a digit. */
  lemma SizeNameNotSuffixed(head: string, j: nat)
    ensures head + NatToString(j) != StrVaSize
  {
    var s := head + NatToString(j);
    assert s[|s| - 1] == NatToString(j)[|NatToString(j)| - 1];
    assert !IsDigit(StrVaSize[|StrVaSize| - 1]);
  }

  /** The variadic assembly records how many arguments it numbered, and
    * binds each numbered name to its argument, when the fixed parameter
    * names do not take those names. */
  lemma VariadicRecordsCount(params: seq<string>, isMethod: bool, size: int)
    requires params != []
    requires StrVaSize !in params[..|params| - 1]
    ensures StrVaSize in BindingMap(VariadicAssembly(params, isMethod, size))
    ensures BindingMap(VariadicAssembly(params, isMethod, size))[StrVaSize] == Count(VariadicCount(params, isMethod, size))
  {
    var fixed := |params| - 1;
    var k := VariadicCount(params, isMethod, size);
    var b := VariadicAssembly(params, isMethod, size);
    assert b[fixed + k] == (StrVaSize, Count(k));
    forall j | 0 <= j < fixed + k
      ensures b[j].0 != b[fixed + k].0
    {
      if j < fixed {
        PositionalAt(params, fixed, j);
        assert b[j].0 == params[..fixed][j];
      } else {
        SuffixedAt(Last(params), fixed, k, j - fixed);
        SizeNameNotSuffixed(Last(params), j - fixed);
      }
    }
    BindingMapFirstWins(b, fixed + k);
  }

  /** Numbered variadic names are bound to consecutive arguments after the
    * fixed ones. */
  lemma VariadicBindsNumbered(params: seq<string>, isMethod: bool, size: int, j: nat)
    requires params != [] && j < VariadicCount(params, isMethod, size)
    requires forall i :: 0 <= i < |params| - 1 ==> params[i] != Last(params) + NatToString(j)
    ensures Last(params) + NatToString(j) in BindingMap(VariadicAssembly(params, isMethod, size))
    ensures BindingMap(VariadicAssembly(params, isMethod, size))[Last(params) + NatToString(j)] == FromArg(|params| - 1 + j)
  {
    var fixed := |params| - 1;
    var k := VariadicCount(params, isMethod, size);
    var b := VariadicAssembly(params, isMethod, size);
    SuffixedAt(Last(params), fixed, k, j);
    assert b[fixed + j] == (Last(params) + NatToString(j), FromArg(fixed + j));
    forall x | 0 <= x < fixed + j
      ensures b[x].0 != b[fixed + j].0
    {
      if x < fixed {
        PositionalAt(params, fixed, x);
      } else {
        NumberedBefore(params, isMethod, size, x, j);
      }
    }
    BindingMapFirstWins(b, fixed + j);
  }

  /** An earlier numbered variadic name differs from the `j`-th. */
  lemma NumberedBefore(params: seq<string>, isMethod: bool, size: int, x: nat, j: nat)
    requires params != [] && |params| - 1 <= x < |params| - 1 + j && j < VariadicCount(params, isMethod, size)
    ensures var b := VariadicAssembly(params, isMethod, size);
      b[x].0 != b[|params| - 1 + j].0
  {
    var fixed := |params| - 1;
    var k := VariadicCount(params, isMethod, size);
    var y := x - fixed;
    SuffixedAt(Last(params), fixed, k, y);
    SuffixedAt(Last(params), fixed, k, j);
    SuffixedNamesDistinct(Last(params), y, j);
  }
}
