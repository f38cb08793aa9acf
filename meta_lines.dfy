// Line pre-processing of the second interpreter generation: cleaning one
// source line of indentation, trailing blanks and its comment, and joining
// lines continued with a trailing `_` into one logical line.

module MetaLines {
  import opened Common

  /** The generic token that heads a line of this generation. */
  datatype GenToken = GtIf | GtElif | GtElse | GtEnd | GtWhile | GtCase | GtWhen | GtDef | GtReturn | GtTypeAssert | GtOther

  /** A line of a script: its generic token and source line index. */
  datatype Meta = Meta(token: GenToken, index: nat)

  /** The characters the tokenizer classes as blank. */
  predicate IsBlankChar(c: char) { c == ' ' || c == '\t' || c == '\r' || c == '\n' }

  /** `Machine::IsBlankStr`: the empty string and strings of blank
    * characters only. */
  function IsBlankStr(s: string): (b: bool)
    ensures b <==> forall i :: 0 <= i < |s| ==> IsBlankChar(s[i])
  {
    if s == [] then true
    else if !IsBlankChar(s[0]) then false
    else
      var rest := IsBlankStr(s[1..]);
      assert forall i :: 1 <= i < |s| ==> s[i] == s[1..][i - 1];
      rest
  }

  // ---------------------------------------------------------------------
  // Cleaning one line

  /** The character before the first one, which no quote can follow as an
    * escape. */
  const Nul: char := 0 as char

  /** Whether the scan is inside a single-quoted literal after `c`, which
    * follows `last`: an unescaped quote toggles it. */
  function QuoteState(inString: bool, c: char, last: char): bool
  {
    if c == '\'' && last != '\\' then !inString else inString
  }

  /** The index of the first `#` at or after `i` that lies outside a
    * single-quoted literal. */
  function CommentFrom(t: string, i: nat, inString: bool, last: char): (k: Option<nat>)
    requires i <= |t|
    ensures k.Some? ==> i <= k.value < |t| && t[k.value] == '#'
    decreases |t| - i
  {
    if i == |t| then None
    else
      var q := QuoteState(inString, t[i], last);
      if !q && t[i] == '#' then Some(i) else CommentFrom(t, i + 1, q, t[i])
  }

  function CommentStart(t: string): Option<nat>
  {
    CommentFrom(t, 0, false, Nul)
  }

  /** The index of the first non-blank character among the first `n`. */
  function FirstNonBlank(t: string, n: nat): (h: Option<nat>)
    requires n <= |t|
    ensures h.Some? ==> h.value < n && !IsBlankChar(t[h.value])
                        && forall j :: 0 <= j < h.value ==> IsBlankChar(t[j])
    ensures h.None? ==> forall j :: 0 <= j < n ==> IsBlankChar(t[j])
  {
    if n == 0 then None
    else
      var h := FirstNonBlank(t, n - 1);
      if h.Some? then h else if !IsBlankChar(t[n - 1]) then Some(n - 1) else None
  }

  /** `s` without its trailing blank characters. */
  function TrimRight(s: string): (r: string)
    ensures r <= s && (r == [] || !IsBlankChar(Last(r)))
    ensures forall j :: |r| <= j < |s| ==> IsBlankChar(s[j])
  {
    if s != [] && IsBlankChar(Last(s)) then TrimRight(Pop(s)) else s
  }

  /** Where the kept text starts: the first non-blank character up to and
    * including the comment mark, or 0. */
  function HeadOf(t: string): (h: nat)
    requires t != ""
    ensures h < |t|
  {
    var k := CommentStart(t);
    var f := FirstNonBlank(t, if k.Some? then k.value + 1 else |t|);
    if f.Some? then f.value else 0
  }

  /** The line `IndentationAndCommentProc` gives back for `t`. */
  function Clean(t: string): string
  {
    if t == "" then ""
    else
      var k := CommentStart(t);
      var head := HeadOf(t);
      var tail := if k.Some? then k.value else 0;
      var data := if tail > head then t[head..tail] else t[head..];
      if data[0] == '#' then "" else TrimRight(data)
  }

  /** `IndentationAndCommentProc`. */
  method IndentationAndCommentProc(target: string) returns (r: string)
    ensures r == Clean(target)
  {
    if target == "" {
      return "";
    }
    var head, tail := 0, 0;
    var exemptBlank, inString := true, false;
    var last := Nul;
    var count := 0;
    while count < |target|
      invariant count <= |target| && tail == 0 && (exemptBlank ==> head == 0)
      invariant CommentFrom(target, count, inString, last) == CommentStart(target)
      invariant FirstNonBlank(target, count) == if exemptBlank then None else Some(head)
      decreases |target| - count
    {
      var c := target[count];
      if !IsBlankChar(c) && exemptBlank {
        head := count;
        exemptBlank := false;
      }
      inString := QuoteState(inString, c, last);
      if !inString && c == '#' {
        tail := count;
        assert CommentStart(target) == Some(count);
        assert FirstNonBlank(target, count + 1) == if exemptBlank then None else Some(head);
        break;
      }
      last := c;
      count := count + 1;
    }
    assert head == HeadOf(target);
    var data := if tail > head then target[head..tail] else target[head..];
    if data[0] == '#' {
      return "";
    }
    while data != [] && IsBlankChar(Last(data))
      invariant TrimRight(data) == Clean(target)
    {
      data := Pop(data);
    }
    return data;
  }

  /** A cleaned line is empty or starts and ends with a non-blank
    * character. */
  lemma CleanEdges(t: string)
    ensures var r := Clean(t); r == "" || (!IsBlankChar(r[0]) && !IsBlankChar(Last(r)))
  {
    if t != "" && CommentStart(t).None? && FirstNonBlank(t, |t|).None? {
      TrimAllBlank(t[0..]);
    }
  }

  lemma TrimAllBlank(s: string)
    requires forall j :: 0 <= j < |s| ==> IsBlankChar(s[j])
    ensures TrimRight(s) == []
  {
  }

  /** When the first non-blank character is `#`, the comment starts there. */
  lemma FirstCharComment(t: string)
    ensures var f := FirstNonBlank(t, |t|);
      f.Some? && t[f.value] == '#' ==> CommentStart(t) == f
  {
    var f := FirstNonBlank(t, |t|);
    if f.Some? && t[f.value] == '#' {
      CommentSkipsBlanks(t, 0, f.value, Nul);
    }
  }

  /** Nothing from the first `#` outside a literal on survives: the cleaned
    * line is a prefix of the text between its first non-blank character
    * and the comment. Without a comment it is the line without its leading
    * and trailing blanks. */
  lemma CleanDropsComment(t: string)
    requires t != ""
    ensures forall j :: 0 <= j < HeadOf(t) ==> IsBlankChar(t[j])
    ensures CommentStart(t).Some? ==>
              HeadOf(t) <= CommentStart(t).value && Clean(t) <= t[HeadOf(t)..CommentStart(t).value]
    ensures CommentStart(t).None? ==> Clean(t) == TrimRight(t[HeadOf(t)..])
  {
    var k := CommentStart(t);
    var n := if k.Some? then k.value + 1 else |t|;
    if k.Some? {
      assert !IsBlankChar(t[k.value]);
      var h := HeadOf(t);
      if h == k.value {
        assert Clean(t) == "";
      } else {
        assert t[h..k.value] <= t[h..];
      }
    } else {
      FirstCharComment(t);
    }
  }

  /** The comment scan passes over blanks without entering a literal. */
  lemma {:induction false} CommentSkipsBlanks(t: string, i: nat, h: nat, last: char)
    requires i <= h < |t|
    requires forall j :: i <= j < h ==> IsBlankChar(t[j])
    requires t[h] == '#'
    ensures CommentFrom(t, i, false, last) == Some(h)
    decreases h - i
  {
    if i < h {
      CommentSkipsBlanks(t, i + 1, h, t[i]);
    }
  }

  /** A line whose first non-blank character is `#` is a comment line and
    * cleans to the empty line. */
  lemma CommentLineIsEmpty(t: string, h: nat)
    requires h < |t| && t[h] == '#'
    requires forall j :: 0 <= j < h ==> IsBlankChar(t[j])
    ensures Clean(t) == ""
  {
    CommentSkipsBlanks(t, 0, h, Nul);
    assert FirstNonBlank(t, h + 1) == Some(h) by {
      if FirstNonBlank(t, h).Some? {
        assert false;
      }
    }
  }

  // ---------------------------------------------------------------------
  // Joining continued lines

  /** `isInString`: whether `s` ends inside a single-quoted literal, where a
    * backslash inside a literal escapes the next character. */
  function InStringFrom(s: string, i: nat, inString: bool, escape: bool): bool
    requires i <= |s|
    decreases |s| - i
  {
    if i == |s| then inString
    else if inString && escape then InStringFrom(s, i + 1, inString, false)
    else
      var q := if s[i] == '\'' then !inString else inString;
      InStringFrom(s, i + 1, q, if q && !escape && s[i] == '\\' then true else escape)
  }

  function InString(s: string): bool
  {
    InStringFrom(s, 0, false, false)
  }

  /** A logical line: the index of its first physical line and its text. */
  datatype StringUnit = StringUnit(index: nat, text: string)

  /** The cleaned physical lines. */
  function Cleaned(src: seq<string>): (c: seq<string>)
    ensures |c| == |src|
  {
    if src == [] then [] else Cleaned(Pop(src)) + [Clean(Last(src))]
  }

  lemma {:induction false} CleanedAt(src: seq<string>, i: nat)
    requires i < |src|
    ensures Cleaned(src)[i] == Clean(src[i])
  {
    if i < |src| - 1 {
      CleanedAt(Pop(src), i);
    }
  }

  /** Extends the logical line `buf`, which has reached cleaned line `idx`,
    * while it ends in `_`: the `_` is dropped and the next cleaned line
    * appended. Gives the last line consumed and the text, or `None` where
    * the source does not finish: the text became empty, the `_` is inside
    * a literal (the source then loops forever), or there is no next line. */
  function Join(c: seq<string>, idx: nat, buf: string): (r: Option<(nat, string)>)
    requires idx < |c|
    ensures r.Some? ==> idx <= r.value.0 < |c| && r.value.1 != "" && Last(r.value.1) != '_'
    decreases |c| - idx
  {
    if buf == "" then None
    else if Last(buf) != '_' then Some((idx, buf))
    else if InString(buf) || idx + 1 == |c| then None
    else Join(c, idx + 1, Pop(buf) + c[idx + 1])
  }

  /** The logical lines from cleaned line `idx` on. */
  function Lines(c: seq<string>, idx: nat): Option<seq<StringUnit>>
    requires idx <= |c|
    decreases |c| - idx
  {
    if idx == |c| then Some([])
    else if c[idx] == "" then Lines(c, idx + 1)
    else match Join(c, idx, c[idx])
      case None => None
      case Some(p) =>
        match Lines(c, p.0 + 1)
        case None => None
        case Some(rest) => Some([StringUnit(idx, p.1)] + rest)
  }

  function Prefixed(out: seq<StringUnit>, r: Option<seq<StringUnit>>): Option<seq<StringUnit>>
  {
    match r
    case None => None
    case Some(rest) => Some(out + rest)
  }

  /** The inner loop of `MultilineProcessing`: extends `buf`, the text of
    * cleaned line `idx`, while it ends in `_`. */
  method ContinueLine(src: seq<string>, idx: nat, buf: string) returns (r: Option<(nat, string)>)
    requires idx < |src|
    ensures r == Join(Cleaned(src), idx, buf)
  {
    ghost var c := Cleaned(src);
    var i, text := idx, buf;
    while true
      invariant idx <= i < |src|
      invariant Join(c, idx, buf) == Join(c, i, text)
      decreases |src| - i
    {
      if text == "" || (Last(text) == '_' && (InString(text) || i + 1 == |src|)) {
        return None;
      }
      if Last(text) != '_' {
        return Some((i, text));
      }
      JoinStep(c, i, text);
      i := i + 1;
      var next := IndentationAndCommentProc(src[i]);
      CleanedAt(src, i);
      text := Pop(text) + next;
    }
  }

  /** What the outer loop of `MultilineProcessing` does with cleaned
    * line `idx`: skip it, give up, or take a logical line ending on a
    * later line. */
  datatype Take = Skip | Stuck | Unit(last: nat, text: string)

  function TakeAt(c: seq<string>, idx: nat): Take
    requires idx < |c|
  {
    if c[idx] == "" then Skip
    else match Join(c, idx, c[idx])
      case None => Stuck
      case Some(p) => Unit(p.0, p.1)
  }

  /** One pass of the outer loop of `MultilineProcessing`. */
  method TakeLine(src: seq<string>, idx: nat) returns (t: Take)
    requires idx < |src|
    ensures t == TakeAt(Cleaned(src), idx)
  {
    var buf := IndentationAndCommentProc(src[idx]);
    CleanedAt(src, idx);
    if buf == "" {
      return Skip;
    }
    var joined := ContinueLine(src, idx, buf);
    if joined.None? {
      return Stuck;
    }
    return Unit(joined.value.0, joined.value.1);
  }

  /** `MultilineProcessing`; `None` where the source loops forever or reads
    * past its input (see `Join`). */
  method MultilineProcessing(src: seq<string>) returns (r: Option<seq<StringUnit>>)
    ensures r == Lines(Cleaned(src), 0)
  {
    ghost var c := Cleaned(src);
    var output: seq<StringUnit> := [];
    var idx: nat := 0;
    PrefixedEmpty(Lines(c, 0));
    while idx < |src|
      invariant idx <= |src|
      invariant Lines(c, 0) == Prefixed(output, Lines(c, idx))
      decreases |src| - idx
    {
      var t := TakeLine(src, idx);
      LinesTake(c, output, idx);
      match t
      case Skip =>
        idx := idx + 1;
      case Stuck =>
        return None;
      case Unit(last, text) =>
        output := output + [StringUnit(idx, text)];
        idx := last + 1;
    }
    PrefixedEmpty(Some(output));
    return Some(output);
  }

  /** `Lines` in terms of one `TakeAt`. */
  lemma LinesTake(c: seq<string>, out: seq<StringUnit>, i: nat)
    requires i < |c|
    ensures TakeAt(c, i).Skip? ==> Prefixed(out, Lines(c, i)) == Prefixed(out, Lines(c, i + 1))
    ensures TakeAt(c, i).Stuck? ==> Prefixed(out, Lines(c, i)) == None
    ensures TakeAt(c, i).Unit? ==>
              i <= TakeAt(c, i).last < |c| &&
              Prefixed(out, Lines(c, i))
              == Prefixed(out + [StringUnit(i, TakeAt(c, i).text)], Lines(c, TakeAt(c, i).last + 1))
  {
    if c[i] != "" {
      LinesStep(c, out, i, Join(c, i, c[i]));
    }
  }

  lemma JoinStep(c: seq<string>, idx: nat, buf: string)
    requires idx + 1 < |c| && buf != "" && Last(buf) == '_' && !InString(buf)
    ensures Join(c, idx, buf) == Join(c, idx + 1, Pop(buf) + c[idx + 1])
  {
  }

  lemma PrefixedEmpty(r: Option<seq<StringUnit>>)
    ensures Prefixed([], r) == r
    ensures r.Some? ==> Prefixed(r.value, Some([])) == r
  {
    if r.Some? {
      assert [] + r.value == r.value + [] == r.value;
    }
  }

  /** One logical line taken off the front of line `i`. */
  lemma LinesStep(c: seq<string>, out: seq<StringUnit>, i: nat, joined: Option<(nat, string)>)
    requires i < |c| && c[i] != "" && joined == Join(c, i, c[i])
    ensures joined.None? ==> Prefixed(out, Lines(c, i)) == None
    ensures joined.Some? ==> Prefixed(out, Lines(c, i))
                             == Prefixed(out + [StringUnit(i, joined.value.1)], Lines(c, joined.value.0 + 1))
  {
    if joined.Some? {
      var rest := Lines(c, joined.value.0 + 1);
      if rest.Some? {
        assert out + ([StringUnit(i, joined.value.1)] + rest.value) == (out + [StringUnit(i, joined.value.1)]) + rest.value;
      }
    }
  }

  /** Every logical line starts on a line that does not clean to the empty
    * line, its text is not empty and does not end in `_`, and the starting
    * indices strictly increase. */
  predicate WellFormed(c: seq<string>, idx: nat, out: seq<StringUnit>)
  {
    && (forall i :: 0 <= i < |out| ==>
          idx <= out[i].index < |c| && c[out[i].index] != ""
          && out[i].text != "" && Last(out[i].text) != '_')
    && (forall i, j :: 0 <= i < j < |out| ==> out[i].index < out[j].index)
  }

  lemma {:induction false} LinesWellFormed(c: seq<string>, idx: nat)
    requires idx <= |c|
    ensures Lines(c, idx).Some? ==> WellFormed(c, idx, Lines(c, idx).value)
    decreases |c| - idx
  {
    if idx < |c| {
      if c[idx] == "" {
        LinesWellFormed(c, idx + 1);
      } else if Join(c, idx, c[idx]).Some? {
        var p := Join(c, idx, c[idx]).value;
        LinesWellFormed(c, p.0 + 1);
      }
    }
  }

  /** The non-empty cleaned lines from `idx` on, each with its index. */
  function Plain(c: seq<string>, idx: nat): seq<StringUnit>
    requires idx <= |c|
    decreases |c| - idx
  {
    if idx == |c| then []
    else if c[idx] == "" then Plain(c, idx + 1)
    else [StringUnit(idx, c[idx])] + Plain(c, idx + 1)
  }

  /** Without continuation marks, the logical lines are exactly the
    * non-empty cleaned lines, in order and with their own indices. */
  lemma {:induction false} LinesWithoutContinuation(c: seq<string>, idx: nat)
    requires idx <= |c|
    requires forall i :: idx <= i < |c| && c[i] != "" ==> Last(c[i]) != '_'
    ensures Lines(c, idx) == Some(Plain(c, idx))
    decreases |c| - idx
  {
    if idx < |c| {
      LinesWithoutContinuation(c, idx + 1);
    }
  }

  /** A line ending in `_` outside a literal is joined with the next one,
    * and the logical line carries the index of its first line. */
  lemma ContinuationJoins(c: seq<string>, idx: nat)
    requires idx + 1 < |c|
    requires c[idx] != "" && Last(c[idx]) == '_' && !InString(c[idx])
    requires var joined := Pop(c[idx]) + c[idx + 1]; joined != "" && Last(joined) != '_'
    ensures Lines(c, idx) == Prefixed([StringUnit(idx, Pop(c[idx]) + c[idx + 1])], Lines(c, idx + 2))
  {
    var joined := Pop(c[idx]) + c[idx + 1];
    var next: nat := idx + 1;
    assert Join(c, idx + 1, joined) == Some((next, joined));
    assert Join(c, idx, c[idx]) == Some((next, joined));
  }
}
