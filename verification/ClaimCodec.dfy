// `claimInput`: the length-prefixed text a claim hash is taken over. A string is its sequence of code units.
module ClaimCodec {
  import opened Common
  import opened Decimal

  function Field(s: string): string {
    Render(|s|) + ":" + s
  }

  function ClaimInput(debtor: string, invoiceNumber: string): string {
    Field(debtor) + "|" + Field(invoiceNumber)
  }

  // ---- Reading it back ------------------------------------------------------------------------

  function ColonAt(s: string): (i: nat)
    ensures i <= |s|
    ensures ':' !in s[..i]
    ensures i < |s| ==> s[i] == ':'
  {
    if s == "" || s[0] == ':' then 0 else 1 + ColonAt(s[1..])
  }

  /** The length a text starts with, and what follows its colon. */
  function TakeLength(s: string): Option<(nat, string)> {
    var i := ColonAt(s);
    if i == |s| then None
    else
      match ParseCanonical(s[..i])
      case None => None
      case Some(n) => Some((n, s[i + 1..]))
  }

  function Decode(s: string): Option<(string, string)> {
    match TakeLength(s)
    case None => None
    case Some((n, rest)) =>
      if n < |rest| && rest[n] == '|' then
        match TakeLength(rest[n + 1..])
        case None => None
        case Some((m, invoiceNumber)) => if m == |invoiceNumber| then Some((rest[..n], invoiceNumber)) else None
      else None
  }

  lemma LengthsHaveNoColon(n: nat)
    ensures ':' !in Render(n)
  {
    RenderIsCanonical(n);
  }

  lemma {:induction false} FirstColon(head: string, tail: string)
    requires ':' !in head
    ensures ColonAt(head + ":" + tail) == |head|
  {
    var s := head + ":" + tail;
    if head == "" {
    } else {
      FirstColon(head[1..], tail);
      assert s[1..] == head[1..] + ":" + tail;
    }
  }

  lemma TakeLengthInverts(s: string, n: nat, rest: string)
    ensures TakeLength(s) == Some((n, rest)) <==> s == Render(n) + ":" + rest
  {
    if s == Render(n) + ":" + rest {
      LengthsHaveNoColon(n);
      FirstColon(Render(n), rest);
      assert s[..|Render(n)|] == Render(n) && s[|Render(n)| + 1..] == rest;
      ParseRender(Render(n), n);
    }
    var i := ColonAt(s);
    if i < |s| {
      assert s == s[..i] + ":" + s[i + 1..];
      ParseRender(s[..i], n);
    }
  }

  lemma EncodedDecodes(debtor: string, invoiceNumber: string)
    ensures Decode(ClaimInput(debtor, invoiceNumber)) == Some((debtor, invoiceNumber))
  {
    var rest := debtor + "|" + Field(invoiceNumber);
    assert ClaimInput(debtor, invoiceNumber) == Render(|debtor|) + ":" + rest;
    TakeLengthInverts(ClaimInput(debtor, invoiceNumber), |debtor|, rest);
    TakeLengthInverts(Field(invoiceNumber), |invoiceNumber|, invoiceNumber);
    assert rest[..|debtor|] == debtor && rest[|debtor| + 1..] == Field(invoiceNumber);
  }

  lemma DecodedWasEncoded(s: string)
    requires Decode(s).Some?
    ensures s == ClaimInput(Decode(s).value.0, Decode(s).value.1)
  {
    var (n, rest) := TakeLength(s).value;
    TakeLengthInverts(s, n, rest);
    var (m, invoiceNumber) := TakeLength(rest[n + 1..]).value;
    TakeLengthInverts(rest[n + 1..], m, invoiceNumber);
    JoinAtBar(Render(n), rest, n);
  }

  lemma JoinAtBar(length: string, rest: string, n: nat)
    requires n < |rest| && rest[n] == '|'
    ensures length + ":" + rest == (length + ":" + rest[..n]) + "|" + rest[n + 1..]
  {
  }

  /** The parser recovers exactly the pair that was encoded, whatever digits, colons and bars it contains, and
      accepts nothing else. */
  lemma DecodeInvertsClaimInput(s: string, debtor: string, invoiceNumber: string)
    ensures Decode(s) == Some((debtor, invoiceNumber)) <==> s == ClaimInput(debtor, invoiceNumber)
  {
    EncodedDecodes(debtor, invoiceNumber);
    if Decode(s).Some? {
      DecodedWasEncoded(s);
    }
  }

  lemma LengthsInText()
    ensures Render(12) == "12" && Render(5) == "5"
  {
    assert Render(1) == "1";
  }

  /** The text itself, for one claim. */
  lemma ClaimText()
    ensures ClaimInput("Acme Trading", "INV-1") == "12:Acme Trading|5:INV-1"
  {
    LengthsInText();
    var debtor, number := "Acme Trading", "INV-1";
    assert |debtor| == 12 && |number| == 5;
    assert Field(debtor) == "12:Acme Trading" && Field(number) == "5:INV-1";
  }

  /** Distinct claims never share an encoding. */
  lemma ClaimInputInjective(d1: string, i1: string, d2: string, i2: string)
    requires ClaimInput(d1, i1) == ClaimInput(d2, i2)
    ensures d1 == d2 && i1 == i2
  {
    EncodedDecodes(d1, i1);
    EncodedDecodes(d2, i2);
  }
}
