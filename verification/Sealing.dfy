/** The sealed envelope: a fixed-size padded body under a keystream, hex-coded and tagged. Bytes are what JSON encodes to. */
module Sealing {
  import opened Options

  type Byte = n: int | 0 <= n < 256
  type Bytes = seq<Byte>

  const SEALED_BODY_BYTES := 2048
  const LENGTH_PREFIX_BYTES := 2
  const CAPACITY := SEALED_BODY_BYTES - LENGTH_PREFIX_BYTES
  const BLOCK_BYTES := 32

  /** The two keyed digests, as whatever functions they are: a 32-byte keystream block, and a tag. */
  datatype Digests = Digests(block: (string, string, nat) -> Bytes, tag: (string, string, string) -> string) {
    ghost predicate Valid() { forall key, nonce, i :: |block(key, nonce, i)| == BLOCK_BYTES }
  }

  datatype Envelope = Envelope(nonce: string, body: string, tag: string)

  datatype Opening = Payload(bytes: Bytes) | NotThisKeys | Malformed

  // ------------------------------------------------------------- exclusive or

  function Power(bits: nat): nat { if bits == 0 then 1 else 2 * Power(bits - 1) }

  /** Bit by bit, from the lowest. */
  function XorBits(a: nat, b: nat, bits: nat): (x: nat)
    ensures x < Power(bits)
  {
    if bits == 0 then 0 else (a % 2 + b % 2) % 2 + 2 * XorBits(a / 2, b / 2, bits - 1)
  }

  function Xor(a: Byte, b: Byte): Byte {
    assert Power(8) == 256;
    XorBits(a, b, 8)
  }

  lemma LowBit(p: nat, y: nat)
    requires p < 2
    ensures (p + 2 * y) / 2 == y && (p + 2 * y) % 2 == p
  {
  }

  lemma XorBitsStep(a: nat, b: nat, bits: nat)
    requires bits > 0
    ensures XorBits(a, b, bits) / 2 == XorBits(a / 2, b / 2, bits - 1) && XorBits(a, b, bits) % 2 == (a % 2 + b % 2) % 2
  {
    var y := XorBits(a / 2, b / 2, bits - 1);
    LowBit((a % 2 + b % 2) % 2, y);
  }

  lemma BitTwice(p: nat, q: nat)
    requires p < 2 && q < 2
    ensures ((p + q) % 2 + q) % 2 == p
  {
  }

  lemma {:induction false} XorBitsTwice(a: nat, b: nat, bits: nat)
    requires a < Power(bits)
    ensures XorBits(XorBits(a, b, bits), b, bits) == a
  {
    if bits > 0 {
      var x := XorBits(a, b, bits);
      XorBitsTwice(a / 2, b / 2, bits - 1);
      XorBitsStep(a, b, bits);
      XorBitsStep(x, b, bits);
      BitTwice(a % 2, b % 2);
      hide *;
      assert XorBits(x, b, bits) / 2 == a / 2 && XorBits(x, b, bits) % 2 == a % 2;
    }
  }

  // ------------------------------------------------------------------ padding

  function Zeros(n: nat): Bytes { seq(n, _ => 0) }

  /** Length prefix, payload, zeros out to the fixed size. */
  function Padded(payload: Bytes): Bytes
    requires |payload| <= CAPACITY
  {
    [|payload| / 256, |payload| % 256] + payload + Zeros(CAPACITY - |payload|)
  }

  method PadToBody(payload: Bytes) returns (padded: Option<array<Byte>>)
    ensures padded.None? <==> |payload| > CAPACITY
    ensures padded.Some? ==> fresh(padded.value) && padded.value[..] == Padded(payload)
  {
    if |payload| > CAPACITY {
      return None;
    }
    var body := new Byte[SEALED_BODY_BYTES](_ => 0);
    body[0] := |payload| / 256;
    body[1] := |payload| % 256;
    for i := 0 to |payload|
      invariant body[0] == |payload| / 256 && body[1] == |payload| % 256
      invariant forall k :: 2 <= k < 2 + i ==> body[k] == payload[k - 2]
      invariant forall k :: 2 + i <= k < SEALED_BODY_BYTES ==> body[k] == 0
    {
      body[LENGTH_PREFIX_BYTES + i] := payload[i];
    }
    assert body[..] == Padded(payload);
    padded := Some(body);
  }

  // ---------------------------------------------------------------- keystream

  /** Byte `i` under byte `i % 32` of block `i / 32`. */
  function Streamed(input: Bytes, d: Digests, key: string, nonce: string): (output: Bytes)
    requires d.Valid()
    ensures |output| == |input|
  {
    seq(|input|, i requires 0 <= i < |input| => Xor(input[i], StreamByte(d, key, nonce, i)))
  }

  function StreamByte(d: Digests, key: string, nonce: string, i: nat): Byte
    requires d.Valid()
  {
    d.block(key, nonce, i / BLOCK_BYTES)[i % BLOCK_BYTES]
  }

  /** Sealing and opening are the same pass. */
  lemma StreamedTwice(input: Bytes, d: Digests, key: string, nonce: string)
    requires d.Valid()
    ensures Streamed(Streamed(input, d, key, nonce), d, key, nonce) == input
  {
    hide StreamByte;
    var once := Streamed(input, d, key, nonce);
    forall i | 0 <= i < |input|
      ensures Streamed(once, d, key, nonce)[i] == input[i]
    {
      XorTwice(input[i], StreamByte(d, key, nonce, i));
    }
  }

  lemma XorTwice(x: Byte, y: Byte)
    ensures Xor(Xor(x, y), y) == x
  {
    assert Power(8) == 256;
    XorBitsTwice(x, y, 8);
  }

  /** Block by block, each span at most a block long, as the protocol runs it. */
  method XorWithKeystream(input: array<Byte>, d: Digests, key: string, nonce: string) returns (output: array<Byte>)
    requires d.Valid()
    ensures fresh(output) && output[..] == Streamed(input[..], d, key, nonce)
  {
    hide StreamByte;
    output := new Byte[input.Length](_ => 0);
    var offset := 0;
    while offset < input.Length
      invariant offset % BLOCK_BYTES == 0
      invariant forall k :: 0 <= k < input.Length && k < offset ==> output[k] == Xor(input[k], StreamByte(d, key, nonce, k))
    {
      XorBlock(input, output, d, key, nonce, offset);
      offset := offset + BLOCK_BYTES;
    }
    assert output[..] == Streamed(input[..], d, key, nonce);
  }

  /** One block's span, in place. */
  method XorBlock(input: array<Byte>, output: array<Byte>, d: Digests, key: string, nonce: string, offset: nat)
    requires d.Valid() && offset % BLOCK_BYTES == 0 && offset < input.Length == output.Length && input != output
    modifies output
    ensures forall k :: 0 <= k < offset ==> output[k] == old(output[k])
    ensures forall k :: offset <= k < input.Length && k < offset + BLOCK_BYTES ==> output[k] == Xor(input[k], StreamByte(d, key, nonce, k))
  {
    hide StreamByte;
    var block := d.block(key, nonce, offset / BLOCK_BYTES);
    var span := if input.Length - offset < BLOCK_BYTES then input.Length - offset else BLOCK_BYTES;
    for i := 0 to span
      invariant forall k :: 0 <= k < offset ==> output[k] == old(output[k])
      invariant forall k :: offset <= k < offset + i ==> output[k] == Xor(input[k], StreamByte(d, key, nonce, k))
    {
      StreamInBlock(d, key, nonce, offset, i);
      output[offset + i] := Xor(input[offset + i], block[i]);
    }
  }

  lemma StreamInBlock(d: Digests, key: string, nonce: string, offset: nat, i: nat)
    requires d.Valid() && offset % BLOCK_BYTES == 0 && i < BLOCK_BYTES
    ensures StreamByte(d, key, nonce, offset + i) == d.block(key, nonce, offset / BLOCK_BYTES)[i]
  {
  }

  // ---------------------------------------------------------------------- hex

  function Digit(n: nat): (c: char)
    requires n < 16
    ensures IsDigit(c)
  {
    "0123456789abcdef"[n]
  }

  predicate IsDigit(c: char) { '0' <= c <= '9' || 'a' <= c <= 'f' }

  /** A hex digit's value, in either case; None for anything else. */
  function Value(c: char): (v: Option<nat>)
    ensures v.Some? ==> v.value < 16
  {
    if '0' <= c <= '9' then Some((c - '0') as nat)
    else if 'a' <= c <= 'f' then Some((c - 'a') as nat + 10)
    else if 'A' <= c <= 'F' then Some((c - 'A') as nat + 10)
    else None
  }

  /** What parsing two characters as hexadecimal stores in a byte; what does not parse stores zero. */
  function ParsePair(c: char, d: char): Byte {
    if Value(c).Some? && Value(d).Some? then Value(c).value * 16 + Value(d).value
    else if Value(c).Some? then Value(c).value
    else if c in " \t\n\r+" && Value(d).Some? then Value(d).value
    else if c == '-' && Value(d).Some? then (256 - Value(d).value) % 256
    else 0
  }

  function HexOf(bytes: Bytes): (hex: string)
    ensures |hex| == 2 * |bytes|
    ensures forall i :: 0 <= i < |hex| ==> IsDigit(hex[i])
  {
    if bytes == [] then ""
    else
      var b := bytes[|bytes| - 1];
      HexOf(bytes[..|bytes| - 1]) + [Digit(b / 16), Digit(b % 16)]
  }

  function Unprefixed(hex: string): string { if |hex| >= 2 && hex[0] == '0' && hex[1] == 'x' then hex[2..] else hex }

  function PairsOf(clean: string): (bytes: Bytes)
    ensures |bytes| == |clean| / 2
  {
    seq(|clean| / 2, i requires 0 <= i < |clean| / 2 => ParsePair(clean[2 * i], clean[2 * i + 1]))
  }

  method BytesToHex(bytes: array<Byte>) returns (hex: string)
    ensures hex == HexOf(bytes[..])
  {
    hex := "";
    for i := 0 to bytes.Length
      invariant hex == HexOf(bytes[..i])
    {
      assert bytes[..i + 1][..i] == bytes[..i];
      hex := hex + [Digit(bytes[i] / 16), Digit(bytes[i] % 16)];
    }
    assert bytes[..bytes.Length] == bytes[..];
  }

  method HexToBytes(hex: string) returns (bytes: array<Byte>)
    ensures fresh(bytes) && bytes[..] == PairsOf(Unprefixed(hex))
  {
    var clean := if |hex| >= 2 && hex[0] == '0' && hex[1] == 'x' then hex[2..] else hex;
    bytes := new Byte[|clean| / 2](_ => 0);
    for i := 0 to bytes.Length
      invariant forall k :: 0 <= k < i ==> bytes[k] == PairsOf(clean)[k]
    {
      bytes[i] := ParsePair(clean[2 * i], clean[2 * i + 1]);
    }
    assert bytes[..] == PairsOf(clean);
  }

  lemma DigitHasItsValue(n: nat)
    requires n < 16
    ensures Value(Digit(n)) == Some(n)
  {
  }

  lemma PairIsTheByte(b: Byte)
    ensures ParsePair(Digit(b / 16), Digit(b % 16)) == b
  {
    DigitHasItsValue(b / 16);
    DigitHasItsValue(b % 16);
  }

  lemma {:induction false} HexPairs(bytes: Bytes)
    ensures PairsOf(HexOf(bytes)) == bytes
  {
    if bytes != [] {
      var n := |bytes| - 1;
      var b, rest := bytes[n], HexOf(bytes[..n]);
      HexPairs(bytes[..n]);
      PairIsTheByte(b);
      var hex := HexOf(bytes);
      assert hex == rest + [Digit(b / 16), Digit(b % 16)];
      forall i | 0 <= i <= n
        ensures PairsOf(hex)[i] == bytes[i]
      {
        if i < n {
          assert hex[2 * i] == rest[2 * i] && hex[2 * i + 1] == rest[2 * i + 1];
          assert PairsOf(rest)[i] == bytes[..n][i];
        }
      }
    }
  }

  /** A body is never mistaken for something with a prefix: no hex digit is an x. */
  lemma BodyHasNoPrefix(bytes: Bytes)
    ensures Unprefixed(HexOf(bytes)) == HexOf(bytes)
  {
    hide HexOf;
    if |HexOf(bytes)| >= 2 {
      assert IsDigit(HexOf(bytes)[1]);
    }
  }

  // ---------------------------------------------------------------- envelopes

  /** The envelope a payload and a fresh nonce make; nothing when the payload does not fit. */
  function Sealed(payload: Bytes, d: Digests, key: string, nonce: string): Option<Envelope>
    requires d.Valid()
  {
    if |payload| > CAPACITY then None
    else
      var body := HexOf(Streamed(Padded(payload), d, key, nonce));
      Some(Envelope(nonce, body, d.tag(key, nonce, body)))
  }

  function ByteAt(bytes: Bytes, i: nat): nat { if i < |bytes| then bytes[i] else 0 }

  /** The payload a plaintext body claims to hold. */
  function Claimed(plaintext: Bytes): Opening {
    var length := ByteAt(plaintext, 0) * 256 + ByteAt(plaintext, 1);
    if length > |plaintext| - LENGTH_PREFIX_BYTES then Malformed
    else Payload(plaintext[LENGTH_PREFIX_BYTES..LENGTH_PREFIX_BYTES + length])
  }

  function Unsealed(e: Envelope, d: Digests, key: string): Opening
    requires d.Valid()
  {
    if d.tag(key, e.nonce, e.body) != e.tag then NotThisKeys
    else Claimed(Streamed(PairsOf(Unprefixed(e.body)), d, key, e.nonce))
  }

  method Seal(payload: Bytes, d: Digests, key: string, nonce: string) returns (e: Option<Envelope>)
    requires d.Valid()
    ensures e == Sealed(payload, d, key, nonce)
  {
    var plaintext := PadToBody(payload);
    if plaintext.None? {
      return None;
    }
    var ciphertext := XorWithKeystream(plaintext.value, d, key, nonce);
    var body := BytesToHex(ciphertext);
    e := Some(Envelope(nonce, body, d.tag(key, nonce, body)));
  }

  method Unseal(e: Envelope, d: Digests, key: string) returns (o: Opening)
    requires d.Valid()
    ensures o == Unsealed(e, d, key)
    ensures o.Payload? ==> d.tag(key, e.nonce, e.body) == e.tag
  {
    OpensIff(e, d, key);
    if d.tag(key, e.nonce, e.body) != e.tag {
      return NotThisKeys;
    }
    var ciphertext := HexToBytes(e.body);
    var plaintext := XorWithKeystream(ciphertext, d, key, e.nonce);
    var bytes := plaintext[..];
    var length := ByteAt(bytes, 0) * 256 + ByteAt(bytes, 1);
    if length > plaintext.Length - LENGTH_PREFIX_BYTES {
      return Malformed;
    }
    o := Payload(plaintext[LENGTH_PREFIX_BYTES..LENGTH_PREFIX_BYTES + length]);
  }

  /** The prefix reads back the length that was written, and so the payload. */
  lemma PaddingClaimsThePayload(payload: Bytes)
    requires |payload| <= CAPACITY
    ensures |Padded(payload)| == SEALED_BODY_BYTES && Claimed(Padded(payload)) == Payload(payload)
  {
    var body := Padded(payload);
    assert body[2..2 + |payload|] == payload;
  }

  /**
   * What is sealed opens, whatever the keystream and the tag: every payload that fits comes back byte for byte, one
   * that does not fit is refused, and every body has the same 4096 hex digits whatever it hides.
   */
  lemma UnsealInvertsSeal(payload: Bytes, d: Digests, key: string, nonce: string)
    requires d.Valid()
    ensures var e := Sealed(payload, d, key, nonce);
            && (e.Some? <==> |payload| <= 2046)
            && (e.Some? ==> Unsealed(e.value, d, key) == Payload(payload) && |e.value.body| == 4096 && e.value.nonce == nonce
                            && forall i :: 0 <= i < 4096 ==> IsDigit(e.value.body[i]))
  {
    hide Padded, Streamed, PairsOf, HexOf, Claimed, Unprefixed, IsDigit;
    if |payload| <= CAPACITY {
      PaddingClaimsThePayload(payload);
      StreamedTwice(Padded(payload), d, key, nonce);
      HexPairs(Streamed(Padded(payload), d, key, nonce));
      BodyHasNoPrefix(Streamed(Padded(payload), d, key, nonce));
    }
  }

  /** An envelope opens under a key exactly when the key's tag matches and the body holds as much as it claims. */
  lemma OpensIff(e: Envelope, d: Digests, key: string)
    requires d.Valid()
    ensures Unsealed(e, d, key).Payload?
            <==> d.tag(key, e.nonce, e.body) == e.tag
                 && (var plaintext := Streamed(PairsOf(Unprefixed(e.body)), d, key, e.nonce);
                     ByteAt(plaintext, 0) * 256 + ByteAt(plaintext, 1) + 2 <= |Unprefixed(e.body)| / 2)
  {
  }
}
