// Shared vocabulary of the interpreter model: optional values and error
// results, the 64-bit unsigned arithmetic of `size_t`, and the decimal
// rendering that `std::to_string` gives to counters.

module Common {

  datatype Option<T> = None | Some(value: T)

  datatype Result<T> = Ok(value: T) | Err(msg: string)
  {
    predicate IsFailure() { Err? }
  }

  /** Number of distinct `size_t` values: counters, indices and sizes wrap modulo 2^64. */
  const SizeMod: int := 0x1_0000_0000_0000_0000

  type SizeT = x: int | 0 <= x < SizeMod

  /** `x - 1` on `size_t`: 0 wraps to the largest value. */
  function Dec(x: SizeT): SizeT
  {
    if x == 0 then SizeMod - 1 else x - 1
  }

  /** `x + 1` on `size_t`: the largest value wraps to 0. */
  function Inc(x: SizeT): SizeT
  {
    if x == SizeMod - 1 then 0 else x + 1
  }

  /** `x - y` on `size_t`. */
  function SubSize(x: SizeT, y: SizeT): SizeT
  {
    if y <= x then x - y else x - y + SizeMod
  }

  lemma DecIncInverse(x: SizeT)
    ensures Inc(Dec(x)) == x && Dec(Inc(x)) == x
  {
  }

  // Stacks are sequences whose top is the last element.

  /** `stack.pop()`. */
  function Pop<T>(s: seq<T>): seq<T>
    requires |s| > 0
  {
    s[..|s| - 1]
  }

  /** `stack.top()`. */
  function Last<T>(s: seq<T>): T
    requires |s| > 0
  {
    s[|s| - 1]
  }

  /** `stack.top() = x`. */
  function SetLast<T>(s: seq<T>, x: T): seq<T>
    requires |s| > 0
  {
    s[|s| - 1 := x]
  }

  predicate IsDigit(c: char) { '0' <= c <= '9' }

  predicate AllDigits(s: string) { forall i :: 0 <= i < |s| ==> IsDigit(s[i]) }

  function DigitChar(d: nat): (c: char)
    requires d < 10
    ensures IsDigit(c) && c as int - '0' as int == d
  {
    (d + '0' as int) as char
  }

  /** The decimal text `std::to_string` gives a non-negative count. */
  function NatToString(n: nat): (s: string)
    ensures |s| >= 1 && AllDigits(s)
    ensures n < 10 <==> |s| == 1
    decreases n
  {
    if n < 10 then [DigitChar(n)] else NatToString(n / 10) + [DigitChar(n % 10)]
  }

  /** The value `std::stoul` reads from a string of decimal digits. */
  function DecimalValue(s: string): nat
    requires AllDigits(s)
  {
    if s == [] then 0
    else DecimalValue(s[..|s| - 1]) * 10 + (s[|s| - 1] as int - '0' as int)
  }

  /** Reading back the decimal text of a count gives the count. */
  lemma {:induction false} DecimalRoundTrip(n: nat)
    ensures DecimalValue(NatToString(n)) == n
  {
    if n >= 10 {
      var s := NatToString(n);
      DecimalRoundTrip(n / 10);
      assert s[..|s| - 1] == NatToString(n / 10);
    }
  }

  /** Distinct counts have distinct decimal texts. */
  lemma NatToStringInjective(m: nat, n: nat)
    requires NatToString(m) == NatToString(n)
    ensures m == n
  {
    DecimalRoundTrip(m);
    DecimalRoundTrip(n);
  }

  /** Names built as a common head followed by distinct counts are distinct. */
  lemma SuffixedNamesDistinct(head: string, m: nat, n: nat)
    requires m != n
    ensures head + NatToString(m) != head + NatToString(n)
  {
    if head + NatToString(m) == head + NatToString(n) {
      assert NatToString(m) == (head + NatToString(m))[|head|..];
      assert NatToString(n) == (head + NatToString(n))[|head|..];
      NatToStringInjective(m, n);
    }
  }
}
