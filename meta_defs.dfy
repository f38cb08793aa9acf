// Extraction of function definitions in the second interpreter generation:
// the first pass of `PreProcessing` finds each top-level `def ... end` range
// and makes a function of the lines strictly inside it, the second pass
// copies the lines outside those ranges.

module MetaDefs {
  import opened Common
  import opened Objects
  import opened MetaLines

  /** A function `MakeFunction` registers: its name, its parameter names and
    * its body lines. */
  datatype FunctionDef = FunctionDef(id: string, parms: seq<string>, proc: seq<Meta>)

  /** The state of the first pass: the count of open `while`/`if`/`case`
    * blocks, the open `def` (its line and header) while one is open, the
    * ranges recorded for removal (`def` line, `end` line), the functions
    * made, and the line of a nested `def` that stopped the pass. */
  datatype DefScan = DefScan(
    depth: nat,
    open: Option<(nat, seq<string>)>,
    ranges: seq<(nat, nat)>,
    defs: seq<FunctionDef>,
    fatal: Option<nat>)

  function InitScan(): DefScan { DefScan(0, None, [], [], None) }

  predicate OpensBlock(t: GenToken) { t == GtWhile || t == GtIf || t == GtCase }

  /** Every range starts before it ends. */
  predicate Forward(ranges: seq<(nat, nat)>)
  {
    forall k :: 0 <= k < |ranges| ==> ranges[k].0 < ranges[k].1
  }

  /** The parts of a state the next step at line `idx` relies on. */
  predicate Fits(sc: DefScan, idx: nat)
  {
    Forward(sc.ranges) && (sc.open.Some? ==> sc.open.value.0 < idx)
  }

  /** `end` of the open `def` at line `idx`: the range is recorded and,
    * when the lines strictly between are not empty, `MakeFunction` makes a
    * function named by the first header entry. `None` where it would read
    * the first entry of an empty header. */
  function CloseDef(storage: seq<Meta>, idx: nat, sc: DefScan): (r: Option<DefScan>)
    requires idx < |storage| && Fits(sc, idx) && sc.open.Some?
    ensures r.Some? ==> Fits(r.value, idx + 1) && r.value.open.None?
  {
    var d := sc.open.value.0;
    var head := sc.open.value.1;
    var closed := sc.(open := None, ranges := sc.ranges + [(d, idx)]);
    if d + 1 > idx - 1 then Some(closed)
    else if head == [] then None
    else Some(closed.(defs := sc.defs + [FunctionDef(head[0], head[1..], storage[d + 1..idx])]))
  }

  /** One line of the first pass; `header` is what the `def` line's own
    * processing yields as its name and parameters. `None` for an `end`
    * with no open block and no open `def`. */
  function StepDef(storage: seq<Meta>, header: Meta -> seq<string>, idx: nat, sc: DefScan): (r: Option<DefScan>)
    requires idx < |storage| && Fits(sc, idx)
    ensures r.Some? ==> Fits(r.value, idx + 1)
  {
    var t := storage[idx].token;
    if OpensBlock(t) then Some(sc.(depth := sc.depth + 1))
    else if t == GtDef then
      if sc.open.Some? then Some(sc.(fatal := Some(idx)))
      else Some(sc.(open := Some((idx, header(storage[idx])))))
    else if t == GtEnd then
      if sc.depth > 0 then Some(sc.(depth := sc.depth - 1))
      else if sc.open.None? then None
      else CloseDef(storage, idx, sc)
    else Some(sc)
  }

  /** The first pass from line `idx` on; it stops at a nested `def`. */
  function ScanDefs(storage: seq<Meta>, header: Meta -> seq<string>, idx: nat, sc: DefScan): (r: Option<DefScan>)
    requires idx <= |storage| && Fits(sc, idx)
    ensures r.Some? ==> Forward(r.value.ranges)
    decreases |storage| - idx
  {
    if idx == |storage| || sc.fatal.Some? then Some(sc)
    else match StepDef(storage, header, idx, sc)
      case None => None
      case Some(t) => ScanDefs(storage, header, idx + 1, t)
  }

  /** The first pass of `PreProcessing`, which does nothing on an unhealthy
    * machine. */
  function Extract(storage: seq<Meta>, health: bool, header: Meta -> seq<string>): (r: Option<DefScan>)
    ensures r.Some? ==> Forward(r.value.ranges)
  {
    if health then ScanDefs(storage, header, 0, InitScan()) else Some(InitScan())
  }

  /** The `skipped_idx` map: each range inserted in order, keyed by its
    * `def` line. */
  function RangeMap(ranges: seq<(nat, nat)>): (m: map<nat, nat>)
    requires Forward(ranges)
    ensures forall k :: k in m ==> k < m[k]
  {
    if ranges == [] then map[] else MapInsert(RangeMap(Pop(ranges)), Last(ranges).0, Last(ranges).1)
  }

  /** The second pass as written: copy line `idx` unless a recorded range
    * starts there, in which case go on after that range's end. */
  function Kept<T>(storage: seq<T>, skipped: map<nat, nat>, idx: nat): seq<T>
    requires forall k :: k in skipped ==> k < skipped[k]
    decreases |storage| - idx
  {
    if idx >= |storage| then []
    else if idx in skipped then Kept(storage, skipped, skipped[idx] + 1)
    else [storage[idx]] + Kept(storage, skipped, idx + 1)
  }

  /** One line of the first pass of `PreProcessing`, on the pass's
    * variables: the nesting count, the open `def` (its line and header),
    * the `skipped_idx` map and the functions made. */
  method ScanLine(storage: seq<Meta>, header: Meta -> seq<string>, idx: nat, sc: DefScan, skipped: map<nat, nat>)
    returns (r: Option<DefScan>, skippedAfter: map<nat, nat>)
    requires idx < |storage| && Fits(sc, idx) && skipped == RangeMap(sc.ranges)
    ensures r == StepDef(storage, header, idx, sc)
    ensures r.Some? ==> skippedAfter == RangeMap(r.value.ranges)
  {
    var depth, open, ranges, defs, fatal := sc.depth, sc.open, sc.ranges, sc.defs, sc.fatal;
    skippedAfter := skipped;
    var token := storage[idx].token;
    if token == GtWhile || token == GtIf || token == GtCase {
      depth := depth + 1;
    } else if token == GtDef {
      if open.Some? {
        fatal := Some(idx);
      } else {
        open := Some((idx, header(storage[idx])));
      }
    } else if token == GtEnd {
      if depth > 0 {
        depth := depth - 1;
      } else if open.None? {
        return None, skippedAfter;
      } else {
        r, skippedAfter := CloseLine(storage, idx, sc, skipped);
        return;
      }
    }
    r := Some(DefScan(depth, open, ranges, defs, fatal));
  }

  /** The `end` that closes the open `def`: the range goes into
    * `skipped_idx` and, when the body is not empty, the function is made. */
  method CloseLine(storage: seq<Meta>, idx: nat, sc: DefScan, skipped: map<nat, nat>)
    returns (r: Option<DefScan>, skippedAfter: map<nat, nat>)
    requires idx < |storage| && Fits(sc, idx) && sc.open.Some? && skipped == RangeMap(sc.ranges)
    ensures r == CloseDef(storage, idx, sc)
    ensures r.Some? ==> skippedAfter == RangeMap(r.value.ranges)
  {
    var d := sc.open.value.0;
    var head := sc.open.value.1;
    skippedAfter := MapInsert(skipped, d, idx);
    var ranges := sc.ranges + [(d, idx)];
    assert Pop(ranges) == sc.ranges;
    var defs := sc.defs;
    if d + 1 <= idx - 1 {
      if head == [] {
        return None, skippedAfter;
      }
      defs := defs + [FunctionDef(head[0], head[1..], storage[d + 1..idx])];
    }
    r := Some(DefScan(sc.depth, None, ranges, defs, sc.fatal));
  }

  /** The second pass of `PreProcessing`: the lines kept, jumping over each
    * recorded range. */
  method RemoveRanges<T>(storage: seq<T>, skipped: map<nat, nat>) returns (kept: seq<T>)
    requires forall k :: k in skipped ==> k < skipped[k]
    ensures kept == Kept(storage, skipped, 0)
  {
    kept := [];
    var i: nat := 0;
    while i < |storage|
      invariant Kept(storage, skipped, 0) == kept + Kept(storage, skipped, i)
      decreases |storage| - i
    {
      if i in skipped {
        i := skipped[i] + 1;
      } else {
        KeptLine(storage, skipped, i, kept);
        kept := kept + [storage[i]];
        i := i + 1;
      }
    }
  }

  /** A line outside the ranges is kept, in front of the lines after it. */
  lemma KeptLine<T>(storage: seq<T>, skipped: map<nat, nat>, i: nat, kept: seq<T>)
    requires forall k :: k in skipped ==> k < skipped[k]
    requires i < |storage| && i !in skipped
    ensures kept + Kept(storage, skipped, i) == (kept + [storage[i]]) + Kept(storage, skipped, i + 1)
  {
  }

  // ---------------------------------------------------------------------
  // What the first pass records

  /** Line `i` lies inside one of the ranges, ends included. */
  predicate Covered(ranges: seq<(nat, nat)>, i: nat)
  {
    exists k :: 0 <= k < |ranges| && ranges[k].0 <= i <= ranges[k].1
  }

  /** The lines outside every range, in order: the reference the second
    * pass is compared with. */
  function Outside<T>(storage: seq<T>, ranges: seq<(nat, nat)>, i: nat): seq<T>
    decreases |storage| - i
  {
    if i >= |storage| then []
    else (if Covered(ranges, i) then [] else [storage[i]]) + Outside(storage, ranges, i + 1)
  }

  /** The ranges come in order, do not overlap, lie before `n`, and run
    * from a `def` line to an `end` line. */
  predicate RangesIn(storage: seq<Meta>, ranges: seq<(nat, nat)>, n: nat)
  {
    && n <= |storage|
    && (forall k :: 0 <= k < |ranges| ==>
          ranges[k].0 < ranges[k].1 < n
          && storage[ranges[k].0].token == GtDef && storage[ranges[k].1].token == GtEnd)
    && (forall j, k :: 0 <= j < k < |ranges| ==> ranges[j].1 < ranges[k].0)
  }

  /** Function `f` is the one made of range `g`: named and parameterised by
    * the `def` line's header, with the lines strictly inside as its body. */
  predicate MadeOf(storage: seq<Meta>, header: Meta -> seq<string>, g: (nat, nat), f: FunctionDef)
  {
    && g.0 < g.1 <= |storage|
    && var head := header(storage[g.0]);
       head != [] && f == FunctionDef(head[0], head[1..], storage[g.0 + 1..g.1])
  }

  /** Some range makes `f`. */
  predicate HasMaker(storage: seq<Meta>, header: Meta -> seq<string>, ranges: seq<(nat, nat)>, f: FunctionDef)
  {
    exists j :: 0 <= j < |ranges| && MadeOf(storage, header, ranges[j], f)
  }

  /** Range `g` makes one of `defs`. */
  predicate HasMade(storage: seq<Meta>, header: Meta -> seq<string>, g: (nat, nat), defs: seq<FunctionDef>)
  {
    exists k :: 0 <= k < |defs| && MadeOf(storage, header, g, defs[k])
  }

  /** Each function made is made of one of the ranges, and each range with
    * lines inside makes one. */
  predicate DefsMade(storage: seq<Meta>, header: Meta -> seq<string>, ranges: seq<(nat, nat)>, defs: seq<FunctionDef>)
  {
    && (forall k :: 0 <= k < |defs| ==> HasMaker(storage, header, ranges, defs[k]))
    && (forall j :: 0 <= j < |ranges| && ranges[j].0 + 1 < ranges[j].1 ==> HasMade(storage, header, ranges[j], defs))
  }

  /** The open `def`, if any: a `def` line before `n`, after every range,
    * with its header. */
  predicate OpenShape(storage: seq<Meta>, header: Meta -> seq<string>, n: nat, sc: DefScan)
  {
    sc.open.Some? ==>
      var d := sc.open.value.0;
      d < n <= |storage| && storage[d].token == GtDef && sc.open.value.1 == header(storage[d])
      && forall k :: 0 <= k < |sc.ranges| ==> sc.ranges[k].1 < d
  }

  /** What holds of the first pass's state after line `n - 1`. */
  predicate ScanShape(storage: seq<Meta>, header: Meta -> seq<string>, n: nat, sc: DefScan)
  {
    && RangesIn(storage, sc.ranges, n)
    && OpenShape(storage, header, n, sc)
    && DefsMade(storage, header, sc.ranges, sc.defs)
    && (sc.fatal.Some? ==> sc.fatal.value < n && storage[sc.fatal.value].token == GtDef && sc.open.Some?)
  }

  /** A range that makes no function keeps `DefsMade`. */
  lemma DefsMadeEmpty(storage: seq<Meta>, header: Meta -> seq<string>, ranges: seq<(nat, nat)>,
                      defs: seq<FunctionDef>, g: (nat, nat))
    requires DefsMade(storage, header, ranges, defs) && g.1 <= g.0 + 1
    ensures DefsMade(storage, header, ranges + [g], defs)
  {
    var rs := ranges + [g];
    forall k | 0 <= k < |defs|
      ensures HasMaker(storage, header, rs, defs[k])
    {
      var j :| 0 <= j < |ranges| && MadeOf(storage, header, ranges[j], defs[k]);
      assert rs[j] == ranges[j];
    }
    forall j | 0 <= j < |rs| && rs[j].0 + 1 < rs[j].1
      ensures HasMade(storage, header, rs[j], defs)
    {
      assert rs[j] == ranges[j];
    }
  }

  /** A range and the function made of it keep `DefsMade`. */
  lemma DefsMadeBoth(storage: seq<Meta>, header: Meta -> seq<string>, ranges: seq<(nat, nat)>,
                     defs: seq<FunctionDef>, g: (nat, nat), f: FunctionDef)
    requires DefsMade(storage, header, ranges, defs) && MadeOf(storage, header, g, f)
    ensures DefsMade(storage, header, ranges + [g], defs + [f])
  {
    var rs := ranges + [g];
    var fs := defs + [f];
    forall k | 0 <= k < |fs|
      ensures HasMaker(storage, header, rs, fs[k])
    {
      if k < |defs| {
        var j :| 0 <= j < |ranges| && MadeOf(storage, header, ranges[j], defs[k]);
        assert rs[j] == ranges[j] && fs[k] == defs[k];
      } else {
        assert rs[|ranges|] == g && fs[k] == f;
      }
    }
    forall j | 0 <= j < |rs| && rs[j].0 + 1 < rs[j].1
      ensures HasMade(storage, header, rs[j], fs)
    {
      if j < |ranges| {
        var k :| 0 <= k < |defs| && MadeOf(storage, header, ranges[j], defs[k]);
        assert rs[j] == ranges[j] && fs[k] == defs[k];
      } else {
        assert rs[j] == g && fs[|defs|] == f;
      }
    }
  }

  /** Closing a `def` at line `idx` keeps the ranges in order. */
  lemma CloseKeepsRanges(storage: seq<Meta>, ranges: seq<(nat, nat)>, d: nat, idx: nat)
    requires RangesIn(storage, ranges, idx) && idx < |storage|
    requires d < idx && storage[d].token == GtDef && storage[idx].token == GtEnd
    requires forall k :: 0 <= k < |ranges| ==> ranges[k].1 < d
    ensures RangesIn(storage, ranges + [(d, idx)], idx + 1)
  {
    var rs := ranges + [(d, idx)];
    assert forall k :: 0 <= k < |ranges| ==> rs[k] == ranges[k];
  }

  /** Closing a `def` keeps the shape. */
  lemma CloseKeepsShape(storage: seq<Meta>, header: Meta -> seq<string>, idx: nat, sc: DefScan)
    requires idx < |storage| && Fits(sc, idx) && sc.open.Some? && storage[idx].token == GtEnd
    requires ScanShape(storage, header, idx, sc) && sc.fatal.None?
    requires CloseDef(storage, idx, sc).Some?
    ensures ScanShape(storage, header, idx + 1, CloseDef(storage, idx, sc).value)
  {
    var d := sc.open.value.0;
    var g := (d, idx);
    CloseKeepsRanges(storage, sc.ranges, d, idx);
    if d + 1 > idx - 1 {
      DefsMadeEmpty(storage, header, sc.ranges, sc.defs, g);
    } else {
      var head := sc.open.value.1;
      DefsMadeBoth(storage, header, sc.ranges, sc.defs, g, FunctionDef(head[0], head[1..], storage[d + 1..idx]));
    }
  }

  /** One line keeps the shape. */
  lemma StepKeepsShape(storage: seq<Meta>, header: Meta -> seq<string>, idx: nat, sc: DefScan)
    requires idx < |storage| && Fits(sc, idx) && sc.fatal.None?
    requires ScanShape(storage, header, idx, sc)
    requires StepDef(storage, header, idx, sc).Some?
    ensures ScanShape(storage, header, idx + 1, StepDef(storage, header, idx, sc).value)
  {
    var tok := storage[idx].token;
    if tok == GtEnd && sc.depth == 0 {
      CloseKeepsShape(storage, header, idx, sc);
    } else {
      var t := StepDef(storage, header, idx, sc).value;
      assert t.ranges == sc.ranges && t.defs == sc.defs;
    }
  }

  /** The whole first pass: its ranges are in order, disjoint, run from a
    * `def` line to an `end` line; each function made is made of one range,
    * and every range with lines inside makes one; a stop is at a `def`
    * met while another `def` is open. */
  lemma {:induction false} ScanDefsShape(storage: seq<Meta>, header: Meta -> seq<string>, idx: nat, sc: DefScan)
    requires idx <= |storage| && Fits(sc, idx) && ScanShape(storage, header, idx, sc)
    requires ScanDefs(storage, header, idx, sc).Some?
    ensures ScanShape(storage, header, |storage|, ScanDefs(storage, header, idx, sc).value)
    decreases |storage| - idx
  {
    if idx == |storage| || sc.fatal.Some? {
      assert ScanDefs(storage, header, idx, sc).value == sc;
    } else {
      StepKeepsShape(storage, header, idx, sc);
      ScanDefsShape(storage, header, idx + 1, StepDef(storage, header, idx, sc).value);
    }
  }

  lemma ExtractShape(storage: seq<Meta>, health: bool, header: Meta -> seq<string>)
    requires Extract(storage, health, header).Some?
    ensures ScanShape(storage, header, |storage|, Extract(storage, health, header).value)
  {
    if health {
      ScanDefsShape(storage, header, 0, InitScan());
    }
  }

  /** A nested `def` stops the pass, but whatever ranges were found before
    * it are still removed. */
  lemma NestedDefStops(storage: seq<Meta>, header: Meta -> seq<string>, idx: nat, sc: DefScan)
    requires idx < |storage| && Fits(sc, idx) && sc.fatal.None?
    requires storage[idx].token == GtDef && sc.open.Some?
    ensures ScanDefs(storage, header, idx, sc) == Some(sc.(fatal := Some(idx)))
  {
    var t := sc.(fatal := Some(idx));
    assert StepDef(storage, header, idx, sc) == Some(t);
  }

  // ---------------------------------------------------------------------
  // What the second pass keeps

  /** A line that starts no range is not in the map. */
  lemma {:induction false} RangeMapAbsent(ranges: seq<(nat, nat)>, i: nat)
    requires Forward(ranges)
    requires forall k :: 0 <= k < |ranges| ==> ranges[k].0 != i
    ensures i !in RangeMap(ranges)
    decreases |ranges|
  {
    if ranges != [] {
      var p := Pop(ranges);
      assert forall k :: 0 <= k < |p| ==> p[k] == ranges[k];
      RangeMapAbsent(p, i);
    }
  }

  /** Each range is in the map under its `def` line. */
  lemma {:induction false} RangeMapHas(ranges: seq<(nat, nat)>, k: nat)
    requires Forward(ranges) && k < |ranges|
    requires forall j, k :: 0 <= j < k < |ranges| ==> ranges[j].1 < ranges[k].0
    ensures ranges[k].0 in RangeMap(ranges) && RangeMap(ranges)[ranges[k].0] == ranges[k].1
    decreases |ranges|
  {
    var p := Pop(ranges);
    assert forall j :: 0 <= j < |p| ==> p[j] == ranges[j];
    if k == |p| {
      assert forall j :: 0 <= j < |p| ==> p[j].0 < ranges[k].0;
      RangeMapAbsent(p, ranges[k].0);
    } else {
      RangeMapHas(p, k);
    }
  }

  /** The lines from inside a range up to just past its end add nothing. */
  lemma {:induction false} SkipRange<T>(storage: seq<T>, ranges: seq<(nat, nat)>, k: nat, i: nat)
    requires 0 <= k < |ranges| && ranges[k].0 <= i <= ranges[k].1 + 1
    ensures Outside(storage, ranges, i) == Outside(storage, ranges, ranges[k].1 + 1)
    decreases ranges[k].1 + 1 - i
  {
    if i <= ranges[k].1 {
      SkipRange(storage, ranges, k, i + 1);
      if i < |storage| {
        assert Covered(ranges, i);
      }
    }
  }

  /** No line is strictly inside two ordered, disjoint ranges' span: the
    * line after a range's end is not strictly inside any range. */
  lemma AfterRangeFree(ranges: seq<(nat, nat)>, k: nat)
    requires 0 <= k < |ranges| && Forward(ranges)
    requires forall j, k :: 0 <= j < k < |ranges| ==> ranges[j].1 < ranges[k].0
    ensures forall q :: 0 <= q < |ranges| ==> !(ranges[q].0 < ranges[k].1 + 1 <= ranges[q].1)
  {
    forall q | 0 <= q < |ranges|
      ensures !(ranges[q].0 < ranges[k].1 + 1 <= ranges[q].1)
    {
      if q < k {
        assert ranges[q].1 < ranges[k].0;
      } else if q > k {
        assert ranges[k].1 < ranges[q].0;
      }
    }
  }

  /** A line that is not strictly inside a range and starts none is
    * outside all of them, and so is not the next line strictly inside. */
  lemma FreeLine(ranges: seq<(nat, nat)>, i: nat)
    requires forall k :: 0 <= k < |ranges| ==> !(ranges[k].0 < i <= ranges[k].1)
    requires forall k :: 0 <= k < |ranges| ==> ranges[k].0 != i
    ensures !Covered(ranges, i)
    ensures forall k :: 0 <= k < |ranges| ==> !(ranges[k].0 < i + 1 <= ranges[k].1)
  {
  }

  /** At the start of a range the second pass goes on after its end. */
  lemma KeptJumps<T>(storage: seq<T>, ranges: seq<(nat, nat)>, k: nat)
    requires Forward(ranges) && 0 <= k < |ranges| && ranges[k].0 < |storage|
    requires forall j, k :: 0 <= j < k < |ranges| ==> ranges[j].1 < ranges[k].0
    ensures Kept(storage, RangeMap(ranges), ranges[k].0) == Kept(storage, RangeMap(ranges), ranges[k].1 + 1)
  {
    RangeMapHas(ranges, k);
  }

  /** Away from every range start the second pass copies the line. */
  lemma KeptCopies<T>(storage: seq<T>, ranges: seq<(nat, nat)>, i: nat)
    requires Forward(ranges) && i < |storage|
    requires forall j, k :: 0 <= j < k < |ranges| ==> ranges[j].1 < ranges[k].0
    requires forall k :: 0 <= k < |ranges| ==> ranges[k].0 != i
    ensures Kept(storage, RangeMap(ranges), i) == [storage[i]] + Kept(storage, RangeMap(ranges), i + 1)
  {
    RangeMapAbsent(ranges, i);
  }

  /** The second pass keeps exactly the lines outside every range, in
    * their order, when the ranges are in order and disjoint. */
  lemma {:induction false} KeptOutside<T>(storage: seq<T>, ranges: seq<(nat, nat)>, i: nat)
    requires Forward(ranges)
    requires forall j, k :: 0 <= j < k < |ranges| ==> ranges[j].1 < ranges[k].0
    requires forall k :: 0 <= k < |ranges| ==> !(ranges[k].0 < i <= ranges[k].1)
    ensures Kept(storage, RangeMap(ranges), i) == Outside(storage, ranges, i)
    decreases |storage| - i
  {
    if i < |storage| {
      if k :| 0 <= k < |ranges| && ranges[k].0 == i {
        KeptJumps(storage, ranges, k);
        SkipRange(storage, ranges, k, i);
        AfterRangeFree(ranges, k);
        KeptOutside(storage, ranges, ranges[k].1 + 1);
      } else {
        KeptCopies(storage, ranges, i);
        FreeLine(ranges, i);
        KeptOutside(storage, ranges, i + 1);
      }
    }
  }

  /** `PreProcessing` as a whole: the lines kept are those outside the
    * recorded `def ... end` ranges, in order. */
  lemma PreProcessingKeeps(storage: seq<Meta>, health: bool, header: Meta -> seq<string>)
    requires Extract(storage, health, header).Some?
    ensures var sc := Extract(storage, health, header).value;
            Kept(storage, RangeMap(sc.ranges), 0) == Outside(storage, sc.ranges, 0)
  {
    var sc := Extract(storage, health, header).value;
    ExtractShape(storage, health, header);
    KeptOutside(storage, sc.ranges, 0);
  }
}
