// Decimal text, as JavaScript's `toString` writes naturals and its callers read them back.
module Decimal {
  import opened Common

  function Digit(d: nat): char
    requires d < 10
  {
    '0' + d as char
  }

  predicate IsDigit(c: char) {
    '0' <= c <= '9'
  }

  predicate AllDigits(s: string) {
    forall i :: 0 <= i < |s| ==> IsDigit(s[i])
  }

  function Render(n: nat): string {
    if n < 10 then [Digit(n)] else Render(n / 10) + [Digit(n % 10)]
  }

  function Value(s: string): nat
    requires AllDigits(s)
  {
    if s == "" then 0 else 10 * Value(s[..|s| - 1]) + (s[|s| - 1] as int - '0' as int)
  }

  /** Decimal text with no superfluous leading zero. */
  predicate Canonical(s: string) {
    s != "" && AllDigits(s) && (s[0] == '0' ==> s == "0")
  }

  lemma {:induction false} RenderIsCanonical(n: nat)
    ensures Canonical(Render(n)) && Value(Render(n)) == n
    ensures Render(n)[0] == '0' <==> n == 0
  {
    if n < 10 {
      assert Render(n)[..0] == "";
    } else {
      RenderIsCanonical(n / 10);
      var s := Render(n / 10) + [Digit(n % 10)];
      assert s[..|s| - 1] == Render(n / 10);
    }
  }

  lemma {:induction false} CanonicalIsRendered(s: string)
    requires Canonical(s)
    ensures Render(Value(s)) == s
    ensures Value(s) == 0 <==> s == "0"
  {
    var last := s[|s| - 1] as int - '0' as int;
    if |s| == 1 {
      assert s[..0] == "";
      assert s == [Digit(last)];
    } else {
      var front := s[..|s| - 1];
      CanonicalIsRendered(front);
      assert front != "0" && s == front + [Digit(last)];
    }
  }

  function ParseCanonical(s: string): Option<nat> {
    if Canonical(s) then Some(Value(s)) else None
  }

  /** Reading back is exactly the inverse of writing. */
  lemma ParseRender(s: string, n: nat)
    ensures ParseCanonical(s) == Some(n) <==> s == Render(n)
  {
    RenderIsCanonical(n);
    if Canonical(s) {
      CanonicalIsRendered(s);
    }
  }
}
