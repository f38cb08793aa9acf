// Call-site argument checking and binding of the third interpreter
// generation: `Generate_Normal`, `Generate_AutoFill` and the arity check of
// `Generate_AutoSize`. Arguments are taken as the objects they were fetched
// as; parameters are bound by popping arguments from the back.

module KisaragiCalls {
  import opened Common
  import opened Objects
  import opened KisaragiWorker

  /** The bindings a call produces, or the error it records. */
  datatype Gen = Bound(objects: map<string, Object>) | ArgError(e: KError)

  /** Binds the parameters from the last one backwards, each to the
    * argument at its position, keeping a binding already present. */
  function BindBack(params: seq<string>, args: seq<Object>, m: map<string, Object>): map<string, Object>
    requires |params| == |args|
  {
    if params == [] then m else BindBack(Pop(params), Pop(args), MapInsert(m, Last(params), Last(args)))
  }

  /** Binds the parameters after the first `n` to the empty object, from the
    * last one backwards. */
  function FillBack(params: seq<string>, n: nat, m: map<string, Object>): map<string, Object>
    requires n <= |params|
    decreases |params|
  {
    if |params| == n then m else FillBack(Pop(params), n, MapInsert(m, Last(params), EmptyObject()))
  }

  /** `Generate_Normal`: exactly as many arguments as parameters. */
  function NormalBind(params: seq<string>, args: seq<Object>, m: map<string, Object>): Gen
  {
    if |args| > |params| then ArgError(TooManyCallArguments)
    else if |args| < |params| then ArgError(RequiredCount(|params|, |args|))
    else Bound(BindBack(params, args, m))
  }

  /** `Generate_AutoFill`: no more arguments than parameters and at least
    * `min`; the parameters without an argument are bound to the empty
    * object first. */
  function AutoFillBind(params: seq<string>, args: seq<Object>, min: nat, m: map<string, Object>): Gen
  {
    if |args| > |params| then ArgError(TooManyCallArguments)
    else if |args| < min then ArgError(RequiredMinimum(min, |args|))
    else Bound(BindBack(params[..|args|], args, FillBack(params, |args|, m)))
  }

  /** The arity check of `Generate_AutoSize`. */
  function AutoSizeCheck(params: seq<string>, args: seq<Object>): Option<KError>
  {
    if |args| < |params| then Some(TooFewArguments) else None
  }

  /** Binding keeps what was bound before and adds exactly the parameters. */
  lemma {:induction false} BindBackKeys(params: seq<string>, args: seq<Object>, m: map<string, Object>)
    requires |params| == |args|
    ensures BindBack(params, args, m).Keys == m.Keys + Members(params)
    ensures forall k :: k in m ==> BindBack(params, args, m)[k] == m[k]
  {
    if params != [] {
      BindBackKeys(Pop(params), Pop(args), MapInsert(m, Last(params), Last(args)));
      assert params == Pop(params) + [Last(params)];
    }
  }

  /** A parameter not bound before and not repeated later is bound to the
    * argument at its own position. */
  lemma {:induction false} BindBackAt(params: seq<string>, args: seq<Object>, m: map<string, Object>, i: nat)
    requires |params| == |args| && i < |params| && params[i] !in m
    requires forall j :: i < j < |params| ==> params[j] != params[i]
    ensures params[i] in BindBack(params, args, m) && BindBack(params, args, m)[params[i]] == args[i]
  {
    BindBackKeys(params, args, m);
    var m1 := MapInsert(m, Last(params), Last(args));
    if i == |params| - 1 {
      BindBackKeys(Pop(params), Pop(args), m1);
    } else {
      assert Pop(params)[i] == params[i] && Pop(args)[i] == args[i];
      BindBackAt(Pop(params), Pop(args), m1, i);
    }
  }

  /** Filling keeps what was bound before and adds the trailing parameters,
    * each bound to the empty object unless it was bound already. */
  lemma {:induction false} FillBackSpec(params: seq<string>, n: nat, m: map<string, Object>)
    requires n <= |params|
    ensures FillBack(params, n, m).Keys == m.Keys + Members(params[n..])
    ensures forall k :: k in FillBack(params, n, m) ==> FillBack(params, n, m)[k] == if k in m then m[k] else EmptyObject()
  {
    FillBackKeys(params, n, m);
    FillBackValues(params, n, m);
  }

  lemma {:induction false} FillBackKeys(params: seq<string>, n: nat, m: map<string, Object>)
    requires n <= |params|
    ensures FillBack(params, n, m).Keys == m.Keys + Members(params[n..])
    decreases |params|
  {
    if |params| != n {
      FillBackKeys(Pop(params), n, MapInsert(m, Last(params), EmptyObject()));
      assert params[n..] == Pop(params)[n..] + [Last(params)];
    }
  }

  lemma {:induction false} FillBackValues(params: seq<string>, n: nat, m: map<string, Object>)
    requires n <= |params|
    ensures forall k :: k in FillBack(params, n, m) ==> FillBack(params, n, m)[k] == if k in m then m[k] else EmptyObject()
    decreases |params|
  {
    if |params| != n {
      FillBackValues(Pop(params), n, MapInsert(m, Last(params), EmptyObject()));
    }
  }

  function Members(params: seq<string>): set<string>
  {
    set p | p in params
  }

  predicate Distinct(params: seq<string>)
  {
    forall i, j :: 0 <= i < j < |params| ==> params[i] != params[j]
  }

  /** A normal call binds exactly when the counts agree, and then binds
    * each fresh parameter to the argument at its position; a count that
    * differs is reported, too many or too few. */
  lemma NormalBindSpec(params: seq<string>, args: seq<Object>, m: map<string, Object>)
    ensures NormalBind(params, args, m).Bound? <==> |args| == |params|
    ensures |args| > |params| ==> NormalBind(params, args, m) == ArgError(TooManyCallArguments)
    ensures |args| < |params| ==> NormalBind(params, args, m) == ArgError(RequiredCount(|params|, |args|))
    ensures |args| == |params| && Distinct(params) && (forall p :: p in params ==> p !in m) ==>
              && NormalBind(params, args, m).objects.Keys == m.Keys + Members(params)
              && forall i :: 0 <= i < |params| ==>
                   params[i] in NormalBind(params, args, m).objects && NormalBind(params, args, m).objects[params[i]] == args[i]
  {
    if |args| == |params| && Distinct(params) && (forall p :: p in params ==> p !in m) {
      BindBackKeys(params, args, m);
      forall i | 0 <= i < |params|
        ensures params[i] in BindBack(params, args, m) && BindBack(params, args, m)[params[i]] == args[i]
      {
        BindBackAt(params, args, m, i);
      }
    }
  }

  /** An auto-fill call binds exactly when the argument count lies between
    * the least count and the parameter count; it then binds each fresh
    * parameter to the argument at its position, or to the empty object
    * when there is none. */
  lemma AutoFillBindSpec(params: seq<string>, args: seq<Object>, min: nat, m: map<string, Object>)
    ensures AutoFillBind(params, args, min, m).Bound? <==> min <= |args| <= |params|
    ensures |args| > |params| ==> AutoFillBind(params, args, min, m) == ArgError(TooManyCallArguments)
    ensures |args| <= |params| && |args| < min ==> AutoFillBind(params, args, min, m) == ArgError(RequiredMinimum(min, |args|))
    ensures min <= |args| <= |params| && Distinct(params) && (forall p :: p in params ==> p !in m) ==>
              && AutoFillBind(params, args, min, m).objects.Keys == m.Keys + Members(params)
              && forall i :: 0 <= i < |params| ==>
                   && params[i] in AutoFillBind(params, args, min, m).objects
                   && AutoFillBind(params, args, min, m).objects[params[i]] == if i < |args| then args[i] else EmptyObject()
  {
    if min <= |args| <= |params| && Distinct(params) && (forall p :: p in params ==> p !in m) {
      FillThenBind(params, args, m);
    }
  }

  lemma FillThenBind(params: seq<string>, args: seq<Object>, m: map<string, Object>)
    requires |args| <= |params| && Distinct(params) && (forall p :: p in params ==> p !in m)
    ensures var r := BindBack(params[..|args|], args, FillBack(params, |args|, m));
            && r.Keys == m.Keys + Members(params)
            && forall i :: 0 <= i < |params| ==> params[i] in r && r[params[i]] == if i < |args| then args[i] else EmptyObject()
  {
    var n := |args|;
    FillThenBindKeys(params, args, m);
    forall i | 0 <= i < |params|
      ensures var r := BindBack(params[..n], args, FillBack(params, n, m));
              params[i] in r && r[params[i]] == if i < n then args[i] else EmptyObject()
    {
      FillThenBindAt(params, args, m, i);
    }
  }

  lemma FillThenBindKeys(params: seq<string>, args: seq<Object>, m: map<string, Object>)
    requires |args| <= |params|
    ensures BindBack(params[..|args|], args, FillBack(params, |args|, m)).Keys == m.Keys + Members(params)
  {
    var n := |args|;
    FillBackSpec(params, n, m);
    BindBackKeys(params[..n], args, FillBack(params, n, m));
    SplitMembers(params, n);
  }

  lemma SplitMembers(params: seq<string>, n: nat)
    requires n <= |params|
    ensures Members(params) == Members(params[..n]) + Members(params[n..])
  {
    assert params == params[..n] + params[n..];
  }

  lemma FillThenBindAt(params: seq<string>, args: seq<Object>, m: map<string, Object>, i: nat)
    requires |args| <= |params| && Distinct(params) && (forall p :: p in params ==> p !in m) && i < |params|
    ensures var r := BindBack(params[..|args|], args, FillBack(params, |args|, m));
            params[i] in r && r[params[i]] == if i < |args| then args[i] else EmptyObject()
  {
    var n := |args|;
    var m1 := FillBack(params, n, m);
    if i < n {
      forall k | 0 <= k < |params[n..]|
        ensures params[n..][k] != params[i]
      {
        assert params[n..][k] == params[n + k];
      }
      assert params[..n][i] == params[i];
      FillBackSpec(params, n, m);
      BindBackAt(params[..n], args, m1, i);
    } else {
      var x := params[i];
      assert x in Members(params[n..]) by {
        assert params[n..][i - n] == x;
      }
      FillBackSpec(params, n, m);
      BindBackKeys(params[..n], args, m1);
    }
  }

  /** A variadic call is refused exactly when there are fewer arguments
    * than parameters. */
  lemma AutoSizeCheckSpec(params: seq<string>, args: seq<Object>)
    ensures AutoSizeCheck(params, args).Some? <==> |args| < |params|
  {
  }

  /** The binding a call makes according to its argument mode. The binding
    * of a variadic call is not modelled: only its arity check is, and the
    * map it starts from is kept. */
  function CallBind(fn: Payload, args: seq<Object>, m: map<string, Object>): Gen
    requires fn.Function?
  {
    match fn.mode
    case NormalParm => NormalBind(fn.params, args, m)
    case AutoFill => AutoFillBind(fn.params, args, if fn.minArgs.Some? then fn.minArgs.value else 0, m)
    case AutoSize => if AutoSizeCheck(fn.params, args).Some? then ArgError(TooFewArguments) else Bound(m)
  }

  /** The binding loop shared by both modes: parameters from the last one
    * backwards, each bound to the argument popped from the back. */
  method BindBackLoop(params: seq<string>, args: seq<Object>, m: map<string, Object>) returns (r: map<string, Object>)
    requires |params| == |args|
    ensures r == BindBack(params, args, m)
  {
    r := m;
    var rest := args;
    var i := |params|;
    assert params[..i] == params && args[..i] == args;
    while i > 0
      invariant 0 <= i <= |params| && rest == args[..i]
      invariant BindBack(params, args, m) == BindBack(params[..i], rest, r)
      decreases i
    {
      assert Pop(params[..i]) == params[..i - 1] && Last(params[..i]) == params[i - 1];
      assert Pop(rest) == args[..i - 1];
      r := MapInsert(r, params[i - 1], Last(rest));
      rest := Pop(rest);
      i := i - 1;
    }
    assert params[..0] == [];
  }

  /** `Generate_Normal`. */
  method GenerateNormal(params: seq<string>, args: seq<Object>, m: map<string, Object>) returns (g: Gen)
    ensures g == NormalBind(params, args, m)
  {
    if |args| > |params| {
      return ArgError(TooManyCallArguments);
    }
    if |args| < |params| {
      return ArgError(RequiredCount(|params|, |args|));
    }
    var r := BindBackLoop(params, args, m);
    return Bound(r);
  }

  /** `Generate_AutoFill`: pads from the back with empty objects until the
    * parameters left match the arguments, then binds those. */
  method GenerateAutoFill(params: seq<string>, args: seq<Object>, min: nat, m: map<string, Object>) returns (g: Gen)
    ensures g == AutoFillBind(params, args, min, m)
  {
    if |args| > |params| {
      return ArgError(TooManyCallArguments);
    }
    if |args| < min {
      return ArgError(RequiredMinimum(min, |args|));
    }
    var ps := params;
    var r := m;
    while |args| != |ps|
      invariant |args| <= |ps| <= |params| && ps == params[..|ps|]
      invariant FillBack(params, |args|, m) == FillBack(ps, |args|, r)
      decreases |ps|
    {
      r := MapInsert(r, Last(ps), EmptyObject());
      ps := Pop(ps);
    }
    r := BindBackLoop(ps, args, r);
    return Bound(r);
  }
}
