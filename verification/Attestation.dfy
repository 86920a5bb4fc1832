// Off-chain delivery attestations: the canonical payload, the 120-byte evidence, and what the contract reads back.
module Attestation {
  import opened Common
  import Delivery
  import Pool

  function Pow256(width: nat): nat {
    if width == 0 then 1 else 256 * Pow256(width - 1)
  }

  type U64 = n: nat | n < 0x1_0000_0000_0000_0000

  function ToLE(n: nat, width: nat): Bytes {
    if width == 0 then [] else [n % 256] + ToLE(n / 256, width - 1)
  }

  function U64LE(n: U64): Bytes {
    ToLE(n, 8)
  }

  lemma {:induction false} BytesOfNumber(n: nat, width: nat)
    requires n < Pow256(width)
    ensures |ToLE(n, width)| == width && Delivery.FromLE(ToLE(n, width)) == n
  {
    if width > 0 {
      BytesOfNumber(n / 256, width - 1);
      assert ToLE(n, width)[1..] == ToLE(n / 256, width - 1);
    }
  }

  lemma {:induction false} NumberOfBytes(bytes: Bytes)
    ensures Delivery.FromLE(bytes) < Pow256(|bytes|)
    ensures ToLE(Delivery.FromLE(bytes), |bytes|) == bytes
  {
    if bytes != [] {
      NumberOfBytes(bytes[1..]);
      assert bytes == [bytes[0]] + bytes[1..];
    }
  }

  /** Eight bytes, least significant first. */
  lemma LittleEndian(e: Bytes)
    requires |e| == 8
    ensures Delivery.FromLE(e)
         == e[0] as int + 0x100 * (e[1] as int) + 0x1_0000 * (e[2] as int) + 0x100_0000 * (e[3] as int) + 0x1_0000_0000 * (e[4] as int)
            + 0x100_0000_0000 * (e[5] as int) + 0x1_0000_0000_0000 * (e[6] as int) + 0x100_0000_0000_0000 * (e[7] as int)
  {
    HighBytes(e[4..]);
    assert e[4..][0] == e[4] && e[4..][1] == e[5] && e[4..][2] == e[6] && e[4..][3] == e[7];
    LowBytes(e);
  }

  lemma HighBytes(e: Bytes)
    requires |e| == 4
    ensures Delivery.FromLE(e) == e[0] as int + 0x100 * (e[1] as int) + 0x1_0000 * (e[2] as int) + 0x100_0000 * (e[3] as int)
  {
    assert e[1..][1..] == e[2..] && e[2..][1..] == e[3..] && e[3..][1..] == [];
    assert Delivery.FromLE(e[3..]) == e[3] as int + 256 * Delivery.FromLE(e[3..][1..]);
    assert Delivery.FromLE(e[2..]) == e[2] as int + 256 * Delivery.FromLE(e[3..]);
  }

  lemma LowBytes(e: Bytes)
    requires |e| == 8
    ensures Delivery.FromLE(e) == e[0] as int + 0x100 * (e[1] as int) + 0x1_0000 * (e[2] as int) + 0x100_0000 * (e[3] as int) + 0x1_0000_0000 * Delivery.FromLE(e[4..])
  {
    assert e[1..][1..] == e[2..] && e[2..][1..] == e[3..] && e[3..][1..] == e[4..];
    assert Delivery.FromLE(e[3..]) == e[3] as int + 256 * Delivery.FromLE(e[4..]);
    assert Delivery.FromLE(e[2..]) == e[2] as int + 256 * Delivery.FromLE(e[3..]);
  }

  lemma Pow256Of8()
    ensures Pow256(8) == 0x1_0000_0000_0000_0000
  {
    assert Pow256(2) == 65_536;
    assert Pow256(5) == 256 * 256 * 256 * Pow256(2);
    assert Pow256(8) == 256 * 256 * 256 * Pow256(5);
  }

  /** A checked request body: `nonce` is its 32 bytes, `buyerKey` the raw 32 bytes of the public key. */
  datatype Input = Input(
    actionId: U64,
    invoiceId: U64,
    occurredAt: U64,
    nonce: Bytes,
    buyerKey: Bytes,
    signature: Bytes)
  {
    predicate WellFormed() {
      |nonce| == 32 && |buyerKey| == 32
    }
  }

  datatype Refusal = InvalidSignature | InvalidEvidence

  datatype Verdict = Accepted(evidence: Bytes) | Refused(reason: Refusal)

  function CanonicalPayload(input: Input): Bytes {
    U64LE(input.actionId) + U64LE(input.invoiceId) + U64LE(input.occurredAt) + input.nonce
  }

  function VerifyAttestation(ed: Delivery.Ed25519, input: Input): Verdict {
    var payload := CanonicalPayload(input);
    if !ed.parsesKey(input.buyerKey) || !ed.accepts(input.buyerKey, payload, input.signature) then Refused(InvalidSignature)
    else if |payload + input.signature| != 120 then Refused(InvalidEvidence)
    else Accepted(payload + input.signature)
  }

  /** The payload is 56 bytes, and its slices are the three numbers and the nonce. */
  lemma PayloadRoundTrip(input: Input)
    requires input.WellFormed()
    ensures var payload := CanonicalPayload(input);
            && |payload| == 56
            && Delivery.FromLE(payload[0..8]) == input.actionId
            && Delivery.FromLE(payload[8..16]) == input.invoiceId
            && Delivery.FromLE(payload[16..24]) == input.occurredAt
            && payload[24..56] == input.nonce
  {
    Pow256Of8();
    BytesOfNumber(input.actionId, 8);
    BytesOfNumber(input.invoiceId, 8);
    BytesOfNumber(input.occurredAt, 8);
    var payload := CanonicalPayload(input);
    assert payload[0..8] == U64LE(input.actionId);
    assert payload[8..16] == U64LE(input.invoiceId);
    assert payload[16..24] == U64LE(input.occurredAt);
    assert payload[24..56] == input.nonce;
  }

  /** Evidence is accepted exactly with a 64-byte signature, and the contract's slices of its 120 bytes recover the
      numbers, the signed prefix and the signature. */
  lemma EvidenceRoundTrip(ed: Delivery.Ed25519, input: Input)
    requires input.WellFormed()
    ensures VerifyAttestation(ed, input).Accepted?
       <==> && ed.parsesKey(input.buyerKey) && ed.accepts(input.buyerKey, CanonicalPayload(input), input.signature)
            && |input.signature| == 64
    ensures VerifyAttestation(ed, input).Accepted? ==>
              var e := VerifyAttestation(ed, input).evidence;
              && |e| == 120
              && Delivery.FromLE(e[0..8]) == input.actionId
              && Delivery.FromLE(e[8..16]) == input.invoiceId
              && Delivery.FromLE(e[16..24]) == input.occurredAt
              && e[0..56] == CanonicalPayload(input)
              && e[56..120] == input.signature
  {
    PayloadRoundTrip(input);
    var payload := CanonicalPayload(input);
    if VerifyAttestation(ed, input).Accepted? {
      var e := VerifyAttestation(ed, input).evidence;
      assert e[0..8] == payload[0..8] && e[8..16] == payload[8..16] && e[16..24] == payload[16..24];
      assert e[0..56] == payload && e[56..120] == input.signature;
    }
  }

  lemma SlicesJoin(e: Bytes)
    requires |e| == 120
    ensures e[0..8] + e[8..16] + e[16..24] + e[24..56] == e[0..56]
  {
  }

  /** No two pieces of evidence mean the same: any 120 bytes are the evidence of the one input their slices name. */
  lemma EvidenceNamesOneInput(e: Bytes, key: Bytes)
    requires |e| == 120
    ensures Delivery.FromLE(e[0..8]) < Pow256(8) && Delivery.FromLE(e[8..16]) < Pow256(8)
    ensures Delivery.FromLE(e[16..24]) < Pow256(8) && Pow256(8) == 0x1_0000_0000_0000_0000
    ensures CanonicalPayload(Input(Delivery.FromLE(e[0..8]), Delivery.FromLE(e[8..16]), Delivery.FromLE(e[16..24]),
                                   e[24..56], key, e[56..120])) == e[0..56]
  {
    Pow256Of8();
    NumberOfBytes(e[0..8]);
    NumberOfBytes(e[8..16]);
    NumberOfBytes(e[16..24]);
    SlicesJoin(e);
  }

  /** Evidence the backend accepted convinces the contract, for an invoice under the same key, exactly when the event
      lies between the deadline and the block time and the contract's library can read the signature. */
  lemma AcceptedEvidenceProves(ed: Delivery.Ed25519, input: Input, invoice: Pool.Invoice, now: nat)
    requires input.WellFormed() && VerifyAttestation(ed, input).Accepted?
    requires invoice.buyerKey == input.buyerKey
    ensures Delivery.Proves(ed, invoice, input.actionId, input.invoiceId, VerifyAttestation(ed, input).evidence, now)
       <==> invoice.deadline <= input.occurredAt <= now && ed.parsesSignature(input.signature)
  {
    EvidenceRoundTrip(ed, input);
  }
}
