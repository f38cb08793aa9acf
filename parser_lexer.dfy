// The merge pass of the first generation's line builder: the raw tokens a
// line was split into are glued into the tokens the expression compiler
// reads (decimal numbers, two-character operators, quoted literals), and
// malformed lines are rejected.

module ParserLexer {
  import opened Common

  /** The token classification of `Kit`, which is not part of this model,
    * as the sets of tokens it classifies: `generic` for identifiers
    * (`GetDataType` gives `kGenericToken`), `symbols` for operators
    * (`kTypeSymbol`), `integers` for what `IsInteger` accepts. An integer
    * token is never empty. */
  datatype Kit = Kit(generic: iset<string>, symbols: iset<string>, integers: iset<string>)

  predicate KitSane(kit: Kit) { "" !in kit.integers }

  /** The two reasons the merge loop `break`s. */
  datatype MergeError = IllegalSubscript | IllegalComma

  function MergeMessage(e: MergeError): string
  {
    match e
    case IllegalSubscript => "Illegal subscript operation."
    case IllegalComma => "Illegal comma location."
  }

  /** The loop variables of the merge pass. `error` records why the loop
    * broke, if it did. */
  datatype MergeState = MergeState(output: seq<string>, forward: string, next: string, inString: bool,
                                   appendingOnce: bool, nest: SizeT, error: Option<MergeError>)

  const InitialMerge := MergeState([], "", "", false, false, 0, None)

  /** `s` is the one-character token `c`. */
  predicate IsSym(s: string, c: char) { |s| == 1 && s[0] == c }

  /** `s` is the two-character token `cc` (`++`, `--`). */
  predicate IsTwice(s: string, c: char) { |s| == 2 && s[0] == c && s[1] == c }

  /** A token that `=` extends into a comparison: `<`, `>`, `=` or `!`. */
  predicate IsComparisonHead(s: string)
  {
    IsSym(s, '<') || IsSym(s, '>') || IsSym(s, '=') || IsSym(s, '!')
  }

  /** Concatenation of a token list. */
  function Flatten(s: seq<string>): string
  {
    if s == [] then "" else Flatten(s[..|s| - 1]) + s[|s| - 1]
  }

  lemma {:induction false} FlattenPrefix(s: seq<string>, n: nat)
    requires 0 < n <= |s|
    ensures Flatten(s[..n]) == Flatten(s[..n - 1]) + s[n - 1]
  {
    assert s[..n] == s[..n - 1] + [s[n - 1]];
    FlattenPush(s[..n - 1], s[n - 1]);
  }

  /** Appends text to the last output token. */
  function AppendLast(out: seq<string>, x: string): (r: seq<string>)
    requires |out| > 0
    ensures |r| == |out| && r[..|r| - 1] == out[..|out| - 1] && r[|r| - 1] == out[|out| - 1] + x
  {
    out[..|out| - 1] + [out[|out| - 1] + x]
  }

  lemma {:induction false} FlattenAppendLast(out: seq<string>, x: string)
    requires |out| > 0
    ensures Flatten(AppendLast(out, x)) == Flatten(out) + x
  {
    var init, last := out[..|out| - 1], out[|out| - 1];
    assert out == init + [last];
    FlattenPush(init, last);
    FlattenPush(init, last + x);
    assert Flatten(init) + (last + x) == (Flatten(init) + last) + x;
  }

  lemma {:induction false} FlattenPush(out: seq<string>, x: string)
    ensures Flatten(out + [x]) == Flatten(out) + x
  {
    assert (out + [x])[..|out|] == out;
  }

  /** Inputs on which the pass is defined: `=` is never first, since the
    * pass would read the last token of an empty output. */
  predicate MergeDefined(kit: Kit, origin: seq<string>)
  {
    KitSane(kit) && (|origin| > 0 ==> !IsSym(origin[0], '='))
  }

  /** Bracket depth after `current`; brackets inside a literal do not count. */
  function NestAfter(inString: bool, current: string, nest: SizeT): SizeT
  {
    if inString then nest
    else if IsSym(current, '(') || IsSym(current, '[') then Inc(nest)
    else if IsSym(current, ')') || IsSym(current, ']') then Dec(nest)
    else nest
  }

  /** What stops the loop at `current`, if anything: a `[` that follows
    * neither an identifier nor a closing bracket, or a `,` that follows a
    * symbol other than a closing bracket, `++`, `--` or a quote. */
  function BreakMessage(kit: Kit, inString: bool, current: string, forward: string): Option<MergeError>
  {
    if inString then None
    else if IsSym(current, '[') && forward !in kit.generic && !IsSym(forward, ']') && !IsSym(forward, ')') then
      Some(IllegalSubscript)
    else if IsSym(current, ',') && forward in kit.symbols && !IsSym(forward, ']') && !IsSym(forward, ')')
            && !IsTwice(forward, '+') && !IsTwice(forward, '-') && !IsSym(forward, '\'') then
      Some(IllegalComma)
    else None
  }

  /** Where `current` goes when it does not stop the loop: a quote opens a
    * new token or closes the literal; inside a literal, and right after a
    * glued `.`, it extends the last token; a second `+` or `-` and a `=`
    * after `<`, `>`, `=` or `!` extend the last token; anything else starts
    * a new token. */
  function Absorb(st: MergeState, current: string): (r: MergeState)
    requires |st.output| > 0 || (!st.inString && !st.appendingOnce && !IsSym(current, '='))
    ensures |r.output| > 0
  {
    if IsSym(current, '\'') && !IsSym(st.forward, '\\') then
      var output := if st.inString then AppendLast(st.output, current) else st.output + [current];
      st.(output := output, inString := !st.inString, forward := current)
    else if st.inString then
      st.(output := AppendLast(st.output, current), forward := current)
    else if st.appendingOnce then
      st.(output := AppendLast(st.output, current), appendingOnce := false, forward := current)
    else if (IsSym(current, '+') || IsSym(current, '-')) && |st.output| > 0 then
      var output := if st.output[|st.output| - 1] == current then AppendLast(st.output, current)
                    else st.output + [current];
      st.(output := output, forward := current)
    else if IsSym(current, '=') then
      var output := if IsComparisonHead(st.output[|st.output| - 1]) then AppendLast(st.output, current)
                    else st.output + [current];
      st.(output := output, forward := current)
    else
      st.(output := st.output + [current], forward := current)
  }

  /** One iteration of the merge loop on raw token `origin[count]`. */
  function Step(kit: Kit, origin: seq<string>, count: nat, st: MergeState): (r: MergeState)
    requires count < |origin| && st.error.None? && KitSane(kit)
    requires |st.output| > 0 || (count == 0 && !IsSym(origin[0], '=') && st.forward == "" && !st.inString && !st.appendingOnce)
    ensures r.error.None? ==> |r.output| > 0
    ensures r.error.Some? ==> !r.inString
  {
    var next := if count + 1 < |origin| then origin[count + 1] else st.next;
    var current := origin[count];
    if !st.inString && IsSym(current, '.') && st.forward in kit.integers && next in kit.integers then
      st.(next := next, output := AppendLast(st.output, current), appendingOnce := true)
    else
      var nest := NestAfter(st.inString, current, st.nest);
      var stop := BreakMessage(kit, st.inString, current, st.forward);
      if stop.Some? then
        st.(next := next, nest := if IsSym(current, '[') then 0 else nest, error := stop)
      else
        Absorb(st.(next := next, nest := nest), current)
  }

  /** The loop state after the first `n` raw tokens, or at the `break`. */
  function Run(kit: Kit, origin: seq<string>, n: nat): (r: MergeState)
    requires n <= |origin| && MergeDefined(kit, origin)
    ensures n == 0 ==> r == InitialMerge
    ensures n > 0 && r.error.None? ==> |r.output| > 0
    ensures r.error.Some? ==> !r.inString
  {
    if n == 0 then InitialMerge
    else
      var s := Run(kit, origin, n - 1);
      if s.error.Some? then s else Step(kit, origin, n - 1, s)
  }

  /** The outcome of the pass: the merged tokens, whether the line is
    * healthy, and the error message it left (if any). */
  datatype MergeOutcome = MergeOutcome(tokens: seq<string>, health: bool, errorString: Option<string>)

  /** The checks after the loop: an open quote and a non-zero bracket count
    * are errors, and the bracket message overwrites any earlier one. */
  function Finish(st: MergeState): MergeOutcome
  {
    var err :=
      if st.nest != 0 then Some("Bracket/Square Bracket is missing")
      else if st.inString then Some("Quotation mark is missing.")
      else if st.error.Some? then Some(MergeMessage(st.error.value))
      else None;
    MergeOutcome(st.output, err.None?, err)
  }

  /** The merge loop of `Processor::Build` over the raw tokens of one line. */
  method MergePass(kit: Kit, origin: seq<string>) returns (out: MergeOutcome)
    requires MergeDefined(kit, origin)
    ensures out == Finish(Run(kit, origin, |origin|))
  {
    var output: seq<string> := [];
    var forward, next := "", "";
    var inString, appendingOnce := false, false;
    var nest: SizeT := 0;
    var error: Option<MergeError> := None;
    var count := 0;
    while count < |origin| && error.None?
      invariant 0 <= count <= |origin|
      invariant Run(kit, origin, count) == MergeState(output, forward, next, inString, appendingOnce, nest, error)
      decreases |origin| - count
    {
      output, forward, next, inString, appendingOnce, nest, error :=
        MergeIteration(kit, origin, count, output, forward, next, inString, appendingOnce, nest);
      count := count + 1;
    }
    if count < |origin| {
      ErrorPersists(kit, origin, count, |origin|);
    }
    out := Finish(MergeState(output, forward, next, inString, appendingOnce, nest, error));
  }

  /** One pass of the merge loop's body on `origin[count]`; `error` is set
    * where the body `break`s. */
  method MergeIteration(kit: Kit, origin: seq<string>, count: nat, output0: seq<string>, forward0: string,
                        next0: string, inString0: bool, appendingOnce0: bool, nest0: SizeT)
    returns (output: seq<string>, forward: string, next: string, inString: bool, appendingOnce: bool,
             nest: SizeT, error: Option<MergeError>)
    requires count < |origin| && KitSane(kit)
    requires |output0| > 0 || (count == 0 && !IsSym(origin[0], '=') && forward0 == "" && !inString0 && !appendingOnce0)
    ensures MergeState(output, forward, next, inString, appendingOnce, nest, error)
            == Step(kit, origin, count, MergeState(output0, forward0, next0, inString0, appendingOnce0, nest0, None))
  {
    output, forward, next, inString, appendingOnce, nest, error :=
      output0, forward0, next0, inString0, appendingOnce0, nest0, None;
    if count + 1 < |origin| { next := origin[count + 1]; }
    var current := origin[count];
    if !inString && IsSym(current, '.') && forward in kit.integers && next in kit.integers {
      output := AppendLast(output, current);
      appendingOnce := true;
      return;
    }
    nest := CountBrackets(inString, current, nest);
    error := CheckBreak(kit, inString, current, forward);
    if error.Some? {
      if IsSym(current, '[') { nest := 0; }
      return;
    }
    ghost var st := MergeState(output, forward, next, inString, appendingOnce, nest, None);
    output, inString, appendingOnce := AbsorbToken(output, forward, inString, appendingOnce, current);
    forward := current;
    assert Absorb(st, current) == MergeState(output, forward, next, inString, appendingOnce, nest, None);
  }

  /** The bracket counting of the loop body. */
  method CountBrackets(inString: bool, current: string, nest0: SizeT) returns (nest: SizeT)
    ensures nest == NestAfter(inString, current, nest0)
  {
    nest := nest0;
    if !inString {
      if IsSym(current, '(') || IsSym(current, '[') { nest := Inc(nest); }
      if IsSym(current, ')') || IsSym(current, ']') { nest := Dec(nest); }
    }
  }

  /** The two checks of the loop body that `break` out of it. */
  method CheckBreak(kit: Kit, inString: bool, current: string, forward: string) returns (stop: Option<MergeError>)
    ensures stop == BreakMessage(kit, inString, current, forward)
  {
    stop := None;
    if !inString {
      if IsSym(current, '[') && forward !in kit.generic && !IsSym(forward, ']') && !IsSym(forward, ')') {
        return Some(IllegalSubscript);
      }
      if IsSym(current, ',') && forward in kit.symbols && !IsSym(forward, ']') && !IsSym(forward, ')')
         && !IsTwice(forward, '+') && !IsTwice(forward, '-') && !IsSym(forward, '\'') {
        return Some(IllegalComma);
      }
    }
  }

  /** The branch of the loop body that places a token which does not stop the loop. */
  method AbsorbToken(output0: seq<string>, forward: string, inString0: bool, appendingOnce0: bool, current: string)
    returns (output: seq<string>, inString: bool, appendingOnce: bool)
    requires |output0| > 0 || (!inString0 && !appendingOnce0 && !IsSym(current, '='))
    ensures var st := MergeState(output0, forward, "", inString0, appendingOnce0, 0, None);
            var r := Absorb(st, current);
            output == r.output && inString == r.inString && appendingOnce == r.appendingOnce
  {
    output, inString, appendingOnce := output0, inString0, appendingOnce0;
    if IsSym(current, '\'') && !IsSym(forward, '\\') {
      if inString {
        output := AppendLast(output, current);
      } else {
        output := output + [current];
      }
      inString := !inString;
    } else if inString {
      output := AppendLast(output, current);
    } else if appendingOnce {
      output := AppendLast(output, current);
      appendingOnce := false;
    } else if (IsSym(current, '+') || IsSym(current, '-')) && |output| > 0 {
      if output[|output| - 1] == current {
        output := AppendLast(output, current);
      } else {
        output := output + [current];
      }
    } else if IsSym(current, '=') {
      if IsComparisonHead(output[|output| - 1]) {
        output := AppendLast(output, current);
      } else {
        output := output + [current];
      }
    } else {
      output := output + [current];
    }
  }

  lemma RunFrozen(kit: Kit, origin: seq<string>, n: nat)
    requires MergeDefined(kit, origin) && 0 < n <= |origin|
    requires Run(kit, origin, n - 1).error.Some?
    ensures Run(kit, origin, n) == Run(kit, origin, n - 1)
  {
  }

  /** Once the loop has broken, later prefixes keep the same state. */
  lemma {:induction false} ErrorPersists(kit: Kit, origin: seq<string>, i: nat, j: nat)
    requires MergeDefined(kit, origin) && i <= j <= |origin|
    requires Run(kit, origin, i).error.Some?
    ensures Run(kit, origin, j) == Run(kit, origin, i)
    decreases j - i
  {
    if i < j {
      ErrorPersists(kit, origin, i, j - 1);
      RunFrozen(kit, origin, j);
    }
  }

  /** `after` is `before` with `x` glued to its last token or pushed as a
    * new token. */
  predicate Extends(before: seq<string>, after: seq<string>, x: string)
  {
    after == before + [x] || (|before| > 0 && after == AppendLast(before, x))
  }

  lemma {:induction false} ExtendsFlatten(before: seq<string>, after: seq<string>, x: string)
    requires Extends(before, after, x)
    ensures Flatten(after) == Flatten(before) + x && |after| <= |before| + 1
  {
    if after == before + [x] {
      FlattenPush(before, x);
    } else {
      FlattenAppendLast(before, x);
    }
  }

  /** Each iteration that does not break places its raw token, whole, at
    * the end of the output. */
  lemma StepExtends(kit: Kit, origin: seq<string>, count: nat, st: MergeState)
    requires count < |origin| && st.error.None? && KitSane(kit)
    requires |st.output| > 0 || (count == 0 && !IsSym(origin[0], '=') && st.forward == "" && !st.inString && !st.appendingOnce)
    requires Step(kit, origin, count, st).error.None?
    ensures Extends(st.output, Step(kit, origin, count, st).output, origin[count])
  {
  }

  lemma RunExtends(kit: Kit, origin: seq<string>, n: nat)
    requires MergeDefined(kit, origin) && 0 < n <= |origin|
    requires Run(kit, origin, n).error.None?
    ensures Extends(Run(kit, origin, n - 1).output, Run(kit, origin, n).output, origin[n - 1])
  {
    StepExtends(kit, origin, n - 1, Run(kit, origin, n - 1));
  }

  lemma {:induction false} RunPreservesText(kit: Kit, origin: seq<string>, n: nat)
    requires MergeDefined(kit, origin) && n <= |origin|
    requires Run(kit, origin, n).error.None?
    ensures Flatten(Run(kit, origin, n).output) == Flatten(origin[..n])
    ensures |Run(kit, origin, n).output| <= n
  {
    if n > 0 {
      var s := Run(kit, origin, n - 1);
      var r := Run(kit, origin, n);
      assert s.error.None?;
      RunPreservesText(kit, origin, n - 1);
      RunExtends(kit, origin, n);
      ExtendsFlatten(s.output, r.output, origin[n - 1]);
      FlattenPrefix(origin, n);
    }
  }

  /** A healthy line's tokens spell the raw tokens, in order, and are no
    * more numerous; an unhealthy one carries the message that decided it. */
  lemma MergeOutcomeSpec(kit: Kit, origin: seq<string>)
    requires MergeDefined(kit, origin)
    ensures var out := Finish(Run(kit, origin, |origin|));
            (out.health ==> Flatten(out.tokens) == Flatten(origin) && |out.tokens| <= |origin|)
            && (out.health <==> out.errorString.None?)
            && (Run(kit, origin, |origin|).inString ==> !out.health)
            && (Run(kit, origin, |origin|).nest != 0 <==> out.errorString == Some("Bracket/Square Bracket is missing"))
  {
    var st := Run(kit, origin, |origin|);
    if st.error.None? {
      RunPreservesText(kit, origin, |origin|);
      assert origin[..|origin|] == origin;
    }
  }
}
