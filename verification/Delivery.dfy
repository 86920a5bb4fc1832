// DeliveryContradictionVerifierV2 and the 120-byte evidence it reads.
module Delivery {
  import opened Common
  import Pool

  /** Ed25519 as the verifier uses it (section 5.1.7 of RFC 8032), left uninterpreted. */
  datatype Ed25519 = Ed25519(
    parsesKey: Bytes -> bool,
    parsesSignature: Bytes -> bool,
    accepts: (Bytes, Bytes, Bytes) -> bool)

  const EVIDENCE_LENGTH: nat := 120

  function FromLE(bytes: Bytes): nat {
    if bytes == [] then 0 else bytes[0] + 256 * FromLE(bytes[1..])
  }

  /** What makes `evidence` a proof that `invoice` was contradicted by the time `now`. */
  predicate Proves(ed: Ed25519, invoice: Pool.Invoice, actionId: nat, invoiceId: nat, evidence: Bytes, now: nat) {
    && |evidence| == EVIDENCE_LENGTH
    && |invoice.buyerKey| == 32
    && FromLE(evidence[0..8]) == actionId
    && FromLE(evidence[8..16]) == invoiceId
    && invoice.deadline <= FromLE(evidence[16..24]) <= now
    && ed.parsesKey(invoice.buyerKey)
    && ed.parsesSignature(evidence[56..120])
    && ed.accepts(invoice.buyerKey, evidence[0..56], evidence[56..120])
  }

  /** `verify`: the verdict and the evidence spent so far. `invoice` is what the named pool answers. */
  function Verify(ed: Ed25519, invoice: Option<Pool.Invoice>, used: set<Bytes>,
                  actionId: nat, invoiceId: nat, evidence: Bytes, now: nat): Result<(bool, set<Bytes>)>
  {
    if invoice.None? then Err(InvoiceNotFound)
    else if evidence !in used && Proves(ed, invoice.value, actionId, invoiceId, evidence, now)
    then Ok((true, used + {evidence}))
    else Ok((false, used))
  }
}
