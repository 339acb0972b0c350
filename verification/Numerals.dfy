/** Decimal numerals, as the server writes them and as a reader takes them. */
module Numerals {
  import opened Wrappers

  function Decimal(n: nat): (s: string)
    ensures s != "" && forall i :: 0 <= i < |s| ==> '0' <= s[i] <= '9'
  {
    var digit := ['0' + (n % 10) as char];
    if n < 10 then digit else Decimal(n / 10) + digit
  }

  function Number(v: int): string { if v < 0 then "-" + Decimal(-v) else Decimal(v) }

  function Digit(ch: char): Option<nat> { if '0' <= ch <= '9' then Some(ch as nat - '0' as nat) else None }

  /** What a text of digits stands for. */
  function Reading(s: string): Option<nat> {
    if s == "" then None
    else
      var last := Digit(s[|s| - 1]);
      if |s| == 1 || last.None? then last
      else
        var rest := Reading(s[..|s| - 1]);
        if rest.None? then None else Some(10 * rest.value + last.value)
  }

  /** Reading a numeral gives the number back, and a numeral does not begin with a needless zero. */
  lemma {:induction false} ReadingUndoesDecimal(n: nat)
    ensures Reading(Decimal(n)) == Some(n)
    ensures Decimal(n)[0] == '0' ==> n == 0
    decreases n
  {
    var s := Decimal(n);
    assert Digit(s[|s| - 1]) == Some(n % 10);
    if n >= 10 {
      ReadingUndoesDecimal(n / 10);
      assert s[..|s| - 1] == Decimal(n / 10);
    }
  }

  lemma DecimalInjective(a: nat, b: nat)
    requires Decimal(a) == Decimal(b)
    ensures a == b
  {
    ReadingUndoesDecimal(a);
    ReadingUndoesDecimal(b);
  }

  lemma NumberInjective(v: int, u: int)
    requires Number(v) == Number(u)
    ensures v == u
  {
    SignFirst(v);
    SignFirst(u);
    if v < 0 && u < 0 {
      assert Number(v)[1..] == Decimal(-v) && Number(u)[1..] == Decimal(-u);
      DecimalInjective(-v, -u);
    } else if v >= 0 && u >= 0 {
      DecimalInjective(v, u);
    }
  }

  lemma SignFirst(v: int)
    ensures |Number(v)| > 0 && (Number(v)[0] == '-' <==> v < 0)
  {
  }
}
