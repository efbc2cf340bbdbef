/**
 * The plaintext layout of world packet headers.
 *
 * Both headers start with the message size as a big-endian u16.  The opcode
 * that follows is a little-endian u16 in server headers and a little-endian
 * u32 in client headers, so a server header is 4 bytes and a client header 6.
 */
module Headers {

  /** Rust's u16 and u32: unsigned, so bit-vectors of that width. */
  type u16 = bv16
  type u32 = bv32

  const U16_BYTES: nat := 2
  const U32_BYTES: nat := 4

  /** A client header: size (u16) followed by opcode (u32). */
  const CLIENT_HEADER_LENGTH: nat := U16_BYTES + U32_BYTES
  /** A server header: size (u16) followed by opcode (u16). */
  const SERVER_HEADER_LENGTH: nat := U16_BYTES + U16_BYTES

  /** Decoded server header; `size` counts the opcode but not the size field itself. */
  datatype ServerHeader = ServerHeader(size: u16, opcode: u16)

  /** Decoded client header; `size` counts the opcode but not the size field itself. */
  datatype ClientHeader = ClientHeader(size: u16, opcode: u32)

  function U16FromBeBytes(hi: bv8, lo: bv8): u16 {
    (hi as bv16 << 8) | lo as bv16
  }

  function U16FromLeBytes(lo: bv8, hi: bv8): u16 {
    lo as bv16 | (hi as bv16 << 8)
  }

  function U32FromLeBytes(b0: bv8, b1: bv8, b2: bv8, b3: bv8): u32 {
    b0 as bv32 | (b1 as bv32 << 8) | (b2 as bv32 << 16) | (b3 as bv32 << 24)
  }

  function U16ToBeBytes(x: u16): seq<bv8> {
    [(x >> 8) as bv8, (x & 0xFF) as bv8]
  }

  function U16ToLeBytes(x: u16): seq<bv8> {
    [(x & 0xFF) as bv8, (x >> 8) as bv8]
  }

  function U32ToLeBytes(x: u32): seq<bv8> {
    [(x & 0xFF) as bv8, ((x >> 8) & 0xFF) as bv8, ((x >> 16) & 0xFF) as bv8, (x >> 24) as bv8]
  }

  /** Size from bytes 0-1 (big-endian), opcode from bytes 2-3 (little-endian). */
  function DecodeServerHeader(d: seq<bv8>): ServerHeader
    requires |d| == SERVER_HEADER_LENGTH
  {
    ServerHeader(U16FromBeBytes(d[0], d[1]), U16FromLeBytes(d[2], d[3]))
  }

  /** Size from bytes 0-1 (big-endian), opcode from bytes 2-5 (little-endian). */
  function DecodeClientHeader(d: seq<bv8>): ClientHeader
    requires |d| == CLIENT_HEADER_LENGTH
  {
    ClientHeader(U16FromBeBytes(d[0], d[1]), U32FromLeBytes(d[2], d[3], d[4], d[5]))
  }

  function EncodeServerHeader(size: u16, opcode: u16): (r: seq<bv8>)
    ensures |r| == SERVER_HEADER_LENGTH
  {
    U16ToBeBytes(size) + U16ToLeBytes(opcode)
  }

  function EncodeClientHeader(size: u16, opcode: u32): (r: seq<bv8>)
    ensures |r| == CLIENT_HEADER_LENGTH
  {
    U16ToBeBytes(size) + U32ToLeBytes(opcode)
  }

  /** Decoding an encoded server header gives back size and opcode, for all u16 values. */
  lemma ServerHeaderRoundTrip(size: u16, opcode: u16)
    ensures DecodeServerHeader(EncodeServerHeader(size, opcode)) == ServerHeader(size, opcode)
  {
  }

  /** Every 4 bytes are the encoding of the server header they decode to. */
  lemma ServerHeaderBytesRoundTrip(d: seq<bv8>)
    requires |d| == SERVER_HEADER_LENGTH
    ensures var h := DecodeServerHeader(d); EncodeServerHeader(h.size, h.opcode) == d
  {
    var h := DecodeServerHeader(d);
    var e := EncodeServerHeader(h.size, h.opcode);
    assert e[0] == d[0] && e[1] == d[1] && e[2] == d[2] && e[3] == d[3];
  }

  /** Decoding an encoded client header gives back size and opcode, for all u16 sizes and u32 opcodes. */
  lemma ClientHeaderRoundTrip(size: u16, opcode: u32)
    ensures DecodeClientHeader(EncodeClientHeader(size, opcode)) == ClientHeader(size, opcode)
  {
  }

  /** Every 6 bytes are the encoding of the client header they decode to. */
  lemma ClientHeaderBytesRoundTrip(d: seq<bv8>)
    requires |d| == CLIENT_HEADER_LENGTH
    ensures var h := DecodeClientHeader(d); EncodeClientHeader(h.size, h.opcode) == d
  {
    var h := DecodeClientHeader(d);
    var e := EncodeClientHeader(h.size, h.opcode);
    assert e[0] == d[0] && e[1] == d[1] && e[2] == d[2] && e[3] == d[3] && e[4] == d[4] && e[5] == d[5];
  }
}
