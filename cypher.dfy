/** The builder the Cypher emitter writes into: an indented builder with a
    two-space tab plus a private counter that names fresh pattern variables. */
module Cypher {
  import opened IndentedString

  /** Decimal digits of `n`, as Kotlin's `Int.toString()` writes a non-negative number. */
  function DecimalString(n: nat): (r: string)
    ensures |r| >= 1
    ensures forall i :: 0 <= i < |r| ==> '0' <= r[i] <= '9'
    ensures n < 10 <==> |r| == 1
  {
    if n < 10 then [Digit(n)] else DecimalString(n / 10) + [Digit(n % 10)]
  }

  function Digit(d: nat): (c: char)
    requires d < 10
    ensures '0' <= c <= '9' && DigitValue(c) == d
  {
    ['0', '1', '2', '3', '4', '5', '6', '7', '8', '9'][d]
  }

  /** The value of one decimal digit. */
  function DigitValue(c: char): nat
    requires '0' <= c <= '9'
  {
    c as int - '0' as int
  }

  /** The number a string of decimal digits denotes, most significant digit first. */
  function DigitsValue(s: string): nat
    requires forall i :: 0 <= i < |s| ==> '0' <= s[i] <= '9'
  {
    if s == [] then 0 else 10 * DigitsValue(s[..|s| - 1]) + DigitValue(s[|s| - 1])
  }

  /** Reading the digits back gives the number: `DecimalString` writes `n` itself. */
  lemma {:induction false} DecimalStringValue(n: nat)
    ensures DigitsValue(DecimalString(n)) == n
  {
    var r := DecimalString(n);
    if n < 10 {
      assert r[..0] == [];
    } else {
      assert r[..|r| - 1] == DecimalString(n / 10);
      DecimalStringValue(n / 10);
    }
  }

  /** The name `variable()` hands out while the counter stands at `n`. */
  function VariableName(n: nat): string {
    "v" + DecimalString(n)
  }

  /** Different numbers are written differently. */
  lemma {:induction false} DecimalStringInjective(a: nat, b: nat)
    requires DecimalString(a) == DecimalString(b)
    ensures a == b
  {
    if a >= 10 && b >= 10 {
      var ra, rb := DecimalString(a), DecimalString(b);
      assert ra[..|ra| - 1] == DecimalString(a / 10);
      assert rb[..|rb| - 1] == DecimalString(b / 10);
      DecimalStringInjective(a / 10, b / 10);
      assert Digit(a % 10) == ra[|ra| - 1] == rb[|rb| - 1] == Digit(b % 10);
    }
  }

  /** Names handed out at different counter values differ, so no builder repeats a name. */
  lemma VariableNamesDistinct(a: nat, b: nat)
    requires a != b
    ensures VariableName(a) != VariableName(b)
  {
    if VariableName(a) == VariableName(b) {
      assert DecimalString(a) == VariableName(a)[1..] == VariableName(b)[1..] == DecimalString(b);
      DecimalStringInjective(a, b);
    }
  }

  class CypherStringBuilder {
    /** The indented builder this one extends; appending goes through it alone. */
    const text: IndentedStringBuilder
    /** The private `varNumber`. */
    var varNumber: nat

    constructor ()
      ensures fresh(text)
      ensures text.tab == "  " && text.buffer == "" && text.indentation == 0
      ensures varNumber == 0
    {
      text := new IndentedStringBuilder("  ");
      varNumber := 0;
    }

    /** `"v" + varNumber++`: the name for the current counter, which then moves on by one. */
    method Variable() returns (name: string)
      modifies this
      ensures name == VariableName(old(varNumber))
      ensures varNumber == old(varNumber) + 1
    {
      name := "v" + DecimalString(varNumber);
      varNumber := varNumber + 1;
    }
  }

  /** A new builder hands out `v0` first, then `v1`. */
  method FirstVariables() returns (first: string, second: string)
    ensures first == "v0" && second == "v1"
  {
    var b := new CypherStringBuilder();
    first := b.Variable();
    second := b.Variable();
  }
}
