/**
 * Two concrete State computations the library's own tests exercise: a
 * counter, and an indexed pipeline whose state changes type at every step
 * (a list of integers, then an optional integer, then an integer, then a
 * string). The last step renders the integer as Java's `Integer.toString`
 * does, modelled here on unbounded integers.
 */
module StateExamples {
  import opened Control
  import opened StateMonad

  /** Java's `int`: 32-bit two's complement. */
  newtype Int32 = x: int | -0x8000_0000 <= x < 0x8000_0000

  /** Java's `n + 1` on an `int`: one more, modulo 2^32, so the largest value wraps to the smallest. */
  function Increment(n: Int32): (r: Int32)
    ensures (r as int - n as int - 1) % 0x1_0000_0000 == 0
    ensures n < 0x7fff_ffff ==> r as int == n as int + 1
  {
    if n == 0x7fff_ffff then -0x8000_0000 else n + 1
  }

  /** Yields the current counter and increments it. */
  function Add1(): State<Int32, Int32, Int32> {
    StateOf((n: Int32) => (Increment(n), n))
  }

  /** The first element of a list, if any. */
  function HeadOption(xs: seq<int>): (r: Option<int>)
    ensures r.Some? <==> |xs| > 0
    ensures r.Some? ==> r.value == xs[0]
  {
    if |xs| == 0 then None else Some(xs[0])
  }

  /** The character of a decimal digit. */
  function DigitChar(d: int): (c: char)
    requires 0 <= d < 10
    ensures '0' <= c <= '9' && c as int - '0' as int == d
  {
    ('0' as int + d) as char
  }

  /** Decimal text of a natural number: digits only, most significant first, no leading zero. */
  function NatToString(n: nat): (r: string)
    ensures |r| > 0
    ensures forall i :: 0 <= i < |r| ==> '0' <= r[i] <= '9'
    ensures r[0] == '0' ==> n == 0
    ensures r[0] == '0' ==> |r| == 1
    decreases n
  {
    if n < 10 then [DigitChar(n)] else NatToString(n / 10) + [DigitChar(n % 10)]
  }

  /** `Integer.toString`: a minus sign exactly for negative numbers, then the digits of the magnitude. */
  function IntToString(n: int): (r: string)
    ensures |r| > 0
    ensures (r[0] == '-') <==> n < 0
    ensures forall i :: (if n < 0 then 1 else 0) <= i < |r| ==> '0' <= r[i] <= '9'
    ensures var k := if n < 0 then 1 else 0; k < |r| && (r[k] == '0' ==> n == 0)
    ensures var k := if n < 0 then 1 else 0; r[k] == '0' ==> |r| == k + 1
  {
    if n < 0 then "-" + NatToString(-n) else NatToString(n)
  }

  /** The number a string of decimal digits denotes. */
  function DecimalValue(s: string): int {
    if |s| == 0 then 0 else DecimalValue(s[..|s| - 1]) * 10 + (s[|s| - 1] as int - '0' as int)
  }

  /** Reads back an optional minus sign followed by decimal digits. */
  function ParseInt(s: string): int {
    if |s| > 0 && s[0] == '-' then -DecimalValue(s[1..]) else DecimalValue(s)
  }

  /** The digits of `n` denote `n`. */
  lemma {:induction false} NatToStringRoundTrip(n: nat)
    ensures DecimalValue(NatToString(n)) == n
    decreases n
  {
    if n >= 10 {
      NatToStringRoundTrip(n / 10);
      var r := NatToString(n);
      assert r[..|r| - 1] == NatToString(n / 10);
    }
  }

  /** Rendering loses nothing: reading the text back gives the number, so distinct numbers render differently. */
  lemma IntToStringRoundTrip(n: int)
    ensures ParseInt(IntToString(n)) == n
  {
    if n < 0 {
      NatToStringRoundTrip(-n);
      assert IntToString(n)[1..] == NatToString(-n);
    } else {
      NatToStringRoundTrip(n);
    }
  }

  /**
   * Replaces the list by its head, the optional head by its value or 0, the
   * integer by its text, and finally yields the state. `Modify` keeps the
   * state's type, so each type-changing step is built with the constructor.
   */
  function Composite(): State<seq<int>, string, string> {
    var listHead := State((xs: seq<int>) => (HeadOption(xs), ()));
    var getOrElse := State((o: Option<int>) => (o.GetOrElse(0), ()));
    var toText := State((n: int) => (IntToString(n), ()));
    listHead.FlatMap((_: ()) =>
      getOrElse.FlatMap((_: ()) =>
        toText.FlatMap((_: ()) => Get())))
  }

  /** The counter yields its initial value and ends one higher. */
  lemma Add1Run(n: Int32)
    ensures n < 0x7fff_ffff ==> Add1().Run(n) == (n + 1, n)
    ensures Add1().Run(0x7fff_ffff) == (-0x8000_0000, 0x7fff_ffff)
    ensures Add1().Run(1) == (2, 1)
  {
  }

  /** Rewriting only the counter's final state leaves the result as it was. */
  lemma Add1WithState(n: Int32)
    ensures Add1().WithState((x: Int32) => x).Eval(n) == Add1().Eval(n)
    ensures Add1().WithState(Increment).Eval(n) == Add1().Eval(n)
  {
  }

  /** The pipeline ends in the text of the list's head, or of 0 for an empty list, and yields it too. */
  lemma CompositeRun(xs: seq<int>)
    ensures Composite().Run(xs) == (IntToString(if |xs| == 0 then 0 else xs[0]), IntToString(if |xs| == 0 then 0 else xs[0]))
    ensures Composite().Run([1, 2, 3]) == ("1", "1")
    ensures Composite().Run([]) == ("0", "0")
  {
  }
}
