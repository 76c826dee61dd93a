/**
 * The byte string an approval signature covers: a version byte, then five fields, each a
 * two-byte big-endian length and that many bytes of UTF-8. The backend and the agent each build it.
 */
module CanonicalPayload {
  import opened Common
  import opened Timestamp
  import opened Utf8

  const SCHEMA_VERSION: Byte := 1
  const MAX_FIELD_BYTES := 0xFFFF

  datatype PayloadError = FieldTooLong | BadExpiry(error: TimeError)

  /** The five texts, in payload order. */
  datatype Fields = Fields(device: string, request: string, hash: string, expiry: string, nonce: string)

  // ---------- the format ----------

  predicate Fits(value: string) {
    |Utf8.Encode(value)| <= MAX_FIELD_BYTES
  }

  function FieldBytes(value: string): (b: seq<Byte>)
    requires Fits(value)
    ensures |b| == 2 + |Utf8.Encode(value)|
  {
    var encoded := Utf8.Encode(value);
    [|encoded| / 256, |encoded| % 256] + encoded
  }

  predicate AllFit(f: Fields) {
    Fits(f.device) && Fits(f.request) && Fits(f.hash) && Fits(f.expiry) && Fits(f.nonce)
  }

  function Payload(f: Fields): Result<seq<Byte>, PayloadError> {
    if AllFit(f)
    then Ok([SCHEMA_VERSION] + FieldBytes(f.device) + FieldBytes(f.request) + FieldBytes(f.hash)
            + FieldBytes(f.expiry) + FieldBytes(f.nonce))
    else Err(FieldTooLong)
  }

  // ---------- a decoder ----------

  function LengthPrefix(b: seq<Byte>): nat
    requires |b| >= 2
  {
    b[0] as int * 256 + b[1] as int
  }

  /** The first field of `b`, and what follows it. */
  function ReadField(b: seq<Byte>): Option<(string, seq<Byte>)> {
    if |b| < 2 || |b| < 2 + LengthPrefix(b) then None
    else
      var end := 2 + LengthPrefix(b);
      match Utf8.Decode(b[2..end])
      case None => None
      case Some(value) => Some((value, b[end..]))
  }

  function ReadFields(b: seq<Byte>, count: nat): Option<seq<string>>
    decreases count
  {
    if count == 0 then (if b == [] then Some([]) else None)
    else
      match ReadField(b)
      case None => None
      case Some((value, rest)) =>
        match ReadFields(rest, count - 1)
        case None => None
        case Some(values) => Some([value] + values)
  }

  function DecodePayload(b: seq<Byte>): Option<Fields> {
    if b == [] || b[0] != SCHEMA_VERSION then None
    else
      match ReadFields(b[1..], 5)
      case None => None
      case Some(v) => if |v| == 5 then Some(Fields(v[0], v[1], v[2], v[3], v[4])) else None
  }

  lemma ReadFieldUndoesWrite(value: string, rest: seq<Byte>)
    requires Fits(value)
    ensures ReadField(FieldBytes(value) + rest) == Some((value, rest))
  {
    var encoded := Utf8.Encode(value);
    var b := FieldBytes(value) + rest;
    assert b[2..2 + |encoded|] == encoded;
    assert b[2 + |encoded|..] == rest;
    DecodeUndoesEncode(value);
  }

  function Concat(values: seq<string>): seq<Byte>
    requires forall v :: v in values ==> Fits(v)
  {
    if values == [] then [] else FieldBytes(values[0]) + Concat(values[1..])
  }

  lemma ReadFieldsStep(b: seq<Byte>, value: string, rest: seq<Byte>, values: seq<string>)
    requires ReadField(b) == Some((value, rest)) && ReadFields(rest, |values|) == Some(values)
    ensures ReadFields(b, 1 + |values|) == Some([value] + values)
  {
  }

  lemma {:induction false} ReadFieldsUndoesConcat(values: seq<string>)
    requires forall v :: v in values ==> Fits(v)
    ensures ReadFields(Concat(values), |values|) == Some(values)
  {
    if values != [] {
      var rest := Concat(values[1..]);
      ReadFieldUndoesWrite(values[0], rest);
      ReadFieldsUndoesConcat(values[1..]);
      ReadFieldsStep(FieldBytes(values[0]) + rest, values[0], rest, values[1..]);
      assert values == [values[0]] + values[1..];
    }
  }

  lemma PayloadIsConcat(f: Fields)
    requires AllFit(f)
    ensures Payload(f).value == [SCHEMA_VERSION] + Concat([f.device, f.request, f.hash, f.expiry, f.nonce])
  {
    Reassociate([SCHEMA_VERSION], FieldBytes(f.device), FieldBytes(f.request), FieldBytes(f.hash),
                FieldBytes(f.expiry), FieldBytes(f.nonce));
    ConcatOfFive(f);
  }

  lemma Reassociate(v: seq<Byte>, a: seq<Byte>, b: seq<Byte>, c: seq<Byte>, d: seq<Byte>, e: seq<Byte>)
    ensures v + a + b + c + d + e == v + (a + (b + (c + (d + (e + [])))))
  {
  }

  lemma ConcatOfFive(f: Fields)
    requires AllFit(f)
    ensures Concat([f.device, f.request, f.hash, f.expiry, f.nonce])
         == FieldBytes(f.device) + (FieldBytes(f.request) + (FieldBytes(f.hash)
            + (FieldBytes(f.expiry) + (FieldBytes(f.nonce) + []))))
  {
    ConcatStep(f.device, [f.request, f.hash, f.expiry, f.nonce]);
    ConcatStep(f.request, [f.hash, f.expiry, f.nonce]);
    ConcatStep(f.hash, [f.expiry, f.nonce]);
    ConcatStep(f.expiry, [f.nonce]);
    ConcatStep(f.nonce, []);
    assert [f.device] + [f.request, f.hash, f.expiry, f.nonce] == [f.device, f.request, f.hash, f.expiry, f.nonce];
    assert [f.request] + [f.hash, f.expiry, f.nonce] == [f.request, f.hash, f.expiry, f.nonce];
    assert [f.hash] + [f.expiry, f.nonce] == [f.hash, f.expiry, f.nonce];
    assert [f.expiry] + [f.nonce] == [f.expiry, f.nonce];
    assert [f.nonce] + [] == [f.nonce];
  }

  lemma ConcatStep(v: string, rest: seq<string>)
    requires Fits(v) && forall x :: x in rest ==> Fits(x)
    ensures Concat([v] + rest) == FieldBytes(v) + Concat(rest)
  {
    assert ([v] + rest)[1..] == rest;
  }

  /** Every payload that is built decodes to the fields it was built from; too long a field is rejected. */
  lemma DecodeUndoesPayload(f: Fields)
    ensures Payload(f).Ok? <==> AllFit(f)
    ensures Payload(f).Ok? ==> DecodePayload(Payload(f).value) == Some(f)
  {
    if AllFit(f) {
      var values := [f.device, f.request, f.hash, f.expiry, f.nonce];
      PayloadIsConcat(f);
      ReadFieldsUndoesConcat(values);
      assert Payload(f).value[1..] == Concat(values);
    }
  }

  /** The bytes themselves: version 1, and each field as its length in two bytes, high byte first, and its UTF-8. */
  lemma PayloadLayout(f: Fields)
    ensures Payload(f).Ok?
       <==> && |Utf8.Encode(f.device)| <= 65535 && |Utf8.Encode(f.request)| <= 65535 && |Utf8.Encode(f.hash)| <= 65535
            && |Utf8.Encode(f.expiry)| <= 65535 && |Utf8.Encode(f.nonce)| <= 65535
    ensures Payload(f).Ok? ==>
              Payload(f).value == [1] + Prefixed(Utf8.Encode(f.device)) + Prefixed(Utf8.Encode(f.request))
                                  + Prefixed(Utf8.Encode(f.hash)) + Prefixed(Utf8.Encode(f.expiry))
                                  + Prefixed(Utf8.Encode(f.nonce))
  {
    hide Utf8.Encode;
  }

  function Prefixed(bytes: seq<Byte>): seq<Byte>
    requires |bytes| <= 65535
  {
    [|bytes| / 256, |bytes| % 256] + bytes
  }

  lemma PayloadInjective(f: Fields, g: Fields)
    requires Payload(f).Ok? && Payload(f) == Payload(g)
    ensures f == g
  {
    DecodeUndoesPayload(f);
    DecodeUndoesPayload(g);
  }

  // ---------- the two builders ----------

  /** What the backend signs. The expiry is formatted only after the first three fields were written. */
  function PythonPayload(device: string, request: string, sha256: string, expiresAt: PythonDatetime, nonce: string)
    : Result<seq<Byte>, PayloadError>
  {
    if !Fits(device) || !Fits(request) || !Fits(Lower(sha256)) then Err(FieldTooLong)
    else
      match UtcOf(expiresAt)
      case Err(e) => Err(BadExpiry(e))
      case Ok(us) => Payload(Fields(device, request, Lower(sha256), PythonText(us), nonce))
  }

  /** What the agent rebuilds from a token. */
  function DotnetPayload(device: string, request: string, sha256: string, expiresAt: Ticks, nonce: string)
    : Result<seq<Byte>, PayloadError>
  {
    Payload(Fields(device, request, Lower(sha256), DotnetText(expiresAt), nonce))
  }

  /**
   * When the backend's builder fails: on too long a text among the first three, else on an expiry that is
   * naive or no instant, else on too long a text among the last two. Otherwise it decodes to its fields.
   */
  lemma PythonPayloadIff(device: string, request: string, sha256: string, expiresAt: PythonDatetime, nonce: string)
    ensures var r := PythonPayload(device, request, sha256, expiresAt, nonce);
            var early := IsLong(device) || IsLong(request) || IsLong(Lower(sha256));
            && (r.Err? && r.error.BadExpiry? <==> !early && UtcOf(expiresAt).Err?)
            && (r == Err(FieldTooLong)
                <==> early || (UtcOf(expiresAt).Ok? && (IsLong(PythonText(UtcOf(expiresAt).value)) || IsLong(nonce))))
            && (r.Ok? ==> UtcOf(expiresAt).Ok?)
            && (r.Ok? ==> DecodePayload(r.value)
                          == Some(Fields(device, request, Lower(sha256), PythonText(UtcOf(expiresAt).value), nonce)))
  {
    if UtcOf(expiresAt).Ok? {
      var f := Fields(device, request, Lower(sha256), PythonText(UtcOf(expiresAt).value), nonce);
      DecodeUndoesPayload(f);
      PayloadLayout(f);
    }
    hide Utf8.Encode;
    hide Payload;
    hide PythonText;
    hide UtcOf;
    hide Lower;
    hide DecodePayload;
  }

  /** The agent's builder fails on too long a text only, and otherwise decodes to its fields. */
  lemma DotnetPayloadIff(device: string, request: string, sha256: string, expiresAt: Ticks, nonce: string)
    ensures var r := DotnetPayload(device, request, sha256, expiresAt, nonce);
            && (r == Err(FieldTooLong)
                <==> IsLong(device) || IsLong(request) || IsLong(Lower(sha256)) || IsLong(DotnetText(expiresAt))
                     || IsLong(nonce))
            && (r.Ok? ==> DecodePayload(r.value)
                          == Some(Fields(device, request, Lower(sha256), DotnetText(expiresAt), nonce)))
  {
    var f := Fields(device, request, Lower(sha256), DotnetText(expiresAt), nonce);
    DecodeUndoesPayload(f);
    PayloadLayout(f);
    hide Utf8.Encode;
    hide DotnetText;
    hide Lower;
    hide DecodePayload;
  }

  predicate IsLong(s: string) {
    |Utf8.Encode(s)| > 65535
  }

  /** A growing byte buffer: Python's `bytearray`, .NET's `MemoryStream`. */
  class PayloadBuffer {
    var bytes: seq<Byte>

    constructor (version: Byte)
      ensures bytes == [version]
    {
      bytes := [version];
    }

    method WriteField(value: string) returns (ok: bool)
      modifies this
      ensures ok <==> Fits(value)
      ensures bytes == if ok then old(bytes) + FieldBytes(value) else old(bytes)
    {
      var encoded := Utf8.Encode(value);
      if |encoded| > MAX_FIELD_BYTES {
        return false;
      }
      bytes := bytes + [|encoded| / 256, |encoded| % 256];
      bytes := bytes + encoded;
      assert bytes == old(bytes) + FieldBytes(value);
      return true;
    }
  }

  method BuildCanonicalPayload(
      device: string, request: string, sha256: string, expiresAt: PythonDatetime, nonce: string)
    returns (r: Result<seq<Byte>, PayloadError>)
    ensures r == PythonPayload(device, request, sha256, expiresAt, nonce)
  {
    var buffer := new PayloadBuffer(SCHEMA_VERSION);
    var ok := buffer.WriteField(device);
    if !ok { return Err(FieldTooLong); }
    ok := buffer.WriteField(request);
    if !ok { return Err(FieldTooLong); }
    ok := buffer.WriteField(Lower(sha256));
    if !ok { return Err(FieldTooLong); }
    var text := FormatDotnetRoundTrip(expiresAt);
    if text.Err? { return Err(BadExpiry(text.error)); }
    ok := buffer.WriteField(text.value);
    if !ok { return Err(FieldTooLong); }
    ok := buffer.WriteField(nonce);
    if !ok { return Err(FieldTooLong); }
    return Ok(buffer.bytes);
  }

  method Build(deviceId: string, requestId: string, sha256Hex: string, expiresAtUtc: Ticks, nonce: string)
    returns (r: Result<seq<Byte>, PayloadError>)
    ensures r == DotnetPayload(deviceId, requestId, sha256Hex, expiresAtUtc, nonce)
  {
    var buffer := new PayloadBuffer(SCHEMA_VERSION);
    var ok := buffer.WriteField(deviceId);
    if !ok { return Err(FieldTooLong); }
    ok := buffer.WriteField(requestId);
    if !ok { return Err(FieldTooLong); }
    ok := buffer.WriteField(Lower(sha256Hex));
    if !ok { return Err(FieldTooLong); }
    ok := buffer.WriteField(DotnetText(expiresAtUtc));
    if !ok { return Err(FieldTooLong); }
    ok := buffer.WriteField(nonce);
    if !ok { return Err(FieldTooLong); }
    return Ok(buffer.bytes);
  }

  /**
   * The agent rebuilds the very bytes the backend signed exactly when every field agrees, hashes up
   * to letter case and the expiry as an instant, in a year both runtimes write with four digits.
   */
  lemma RebuiltBytesEqualSignedBytes(
      device: string, request: string, sha256: string, expiresAt: PythonDatetime, nonce: string,
      device': string, request': string, sha256': string, expiresAt': Ticks, nonce': string)
    requires PythonPayload(device, request, sha256, expiresAt, nonce).Ok?
    ensures PythonPayload(device, request, sha256, expiresAt, nonce)
         == DotnetPayload(device', request', sha256', expiresAt', nonce')
       <==> && device == device' && request == request' && nonce == nonce'
            && Lower(sha256) == Lower(sha256')
            && expiresAt' == ToTicks(UtcOf(expiresAt).value)
            && YearOfMicros(UtcOf(expiresAt).value) >= 1000
  {
    var us := UtcOf(expiresAt).value;
    var f := Fields(device, request, Lower(sha256), PythonText(us), nonce);
    var g := Fields(device', request', Lower(sha256'), DotnetText(expiresAt'), nonce');
    TextsAgree(us);
    if Payload(f) == Payload(g) {
      PayloadInjective(f, g);
      EqualTextsAreOneInstant(us, expiresAt');
    }
  }
}
