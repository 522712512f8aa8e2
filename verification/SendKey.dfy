/** derive_idempotency_key of app/actions/send_dedup.py: "action:run_id" names one logical send. */
module SendKey {

  function Digit(d: nat): (c: char)
    requires d < 10
    ensures '0' <= c <= '9'
  {
    ['0', '1', '2', '3', '4', '5', '6', '7', '8', '9'][d]
  }

  /** Decimal rendering of a run id. */
  function Decimal(n: nat): (s: string)
    ensures |s| > 0 && forall i :: 0 <= i < |s| ==> '0' <= s[i] <= '9'
  {
    if n < 10 then [Digit(n)] else Decimal(n / 10) + [Digit(n % 10)]
  }

  function Key(action: string, run: nat): string {
    action + ":" + Decimal(run)
  }

  lemma DigitInjective(a: nat, b: nat)
    requires a < 10 && b < 10 && Digit(a) == Digit(b)
    ensures a == b
  {
  }

  /** Ten or more needs at least two digits. */
  lemma DecimalLength(n: nat)
    ensures |Decimal(n)| == 1 <==> n < 10
  {
  }

  lemma {:induction false} DecimalInjective(a: nat, b: nat)
    requires Decimal(a) == Decimal(b)
    ensures a == b
    decreases a
  {
    DecimalLength(a);
    DecimalLength(b);
    var s, t := Decimal(a), Decimal(b);
    assert s[|s| - 1] == t[|t| - 1];
    DigitInjective(a % 10, b % 10);
    if a >= 10 {
      assert s[..|s| - 1] == Decimal(a / 10) && t[..|t| - 1] == Decimal(b / 10);
      DecimalInjective(a / 10, b / 10);
    }
  }

  /** From the end of the action on, the only colon is the separator. */
  lemma ColonAt(a: string, r: nat, i: nat)
    requires |a| <= i < |Key(a, r)|
    ensures Key(a, r)[i] == ':' <==> i == |a|
  {
    if i > |a| { assert Key(a, r)[i] == Decimal(r)[i - |a| - 1]; }
  }

  /** The key determines both the action and the run, even for actions that contain colons. */
  lemma KeyInjective(a: string, r: nat, b: string, q: nat)
    requires Key(a, r) == Key(b, q)
    ensures a == b && r == q
  {
    var x, y := Key(a, r), Key(b, q);
    if |a| <= |b| {
      ColonAt(b, q, |b|);
      ColonAt(a, r, |b|);
    } else {
      ColonAt(a, r, |a|);
      ColonAt(b, q, |a|);
    }
    assert a == x[..|a|] && b == y[..|b|];
    assert Decimal(r) == x[|a| + 1..] && Decimal(q) == y[|b| + 1..];
    DecimalInjective(r, q);
  }
}
