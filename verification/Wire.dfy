/** What crosses the wire: an approval token and the ideal signature on it. */
module Wire {
  import opened Timestamp
  import opened Utf8

  /** An ideal Ed25519 signature: the backend's own on one payload, or anything else. */
  datatype Signature = Genuine(payload: seq<Byte>) | Forged

  datatype WireToken = WireToken(
    device: string, request: string, sha256: string, expiresAt: Ticks, nonce: string, signature: Signature)
}
