/**
 * The encrypting half of the header cipher, kept with the writer side of a
 * connection.  Its byte step is the algebraic inverse of the decrypter's:
 * `c = (p XOR key[index]) + previous`, after which `previous` is `c`.
 */
module Encrypt {
  import opened HeaderCipher
  import opened Headers

  /**
   * Encrypts `data` in place, byte after byte, starting from `(index, previousValue)`,
   * and returns the state after the last byte.
   */
  method EncryptInPlace(data: array<bv8>, key: seq<bv8>, index: u8, previousValue: bv8)
    returns (newIndex: u8, newPreviousValue: bv8)
    requires ValidState(key, CipherState(index, previousValue))
    modifies data
    ensures data[..] == EncryptRun(key, CipherState(index, previousValue), old(data[..])).output
    ensures CipherState(newIndex, newPreviousValue)
            == EncryptRun(key, CipherState(index, previousValue), old(data[..])).final
  {
    ghost var start := CipherState(index, previousValue);
    ghost var input := data[..];
    newIndex, newPreviousValue := index, previousValue;
    for i := 0 to data.Length
      invariant data[i..] == input[i..]
      invariant data[..i] == EncryptRun(key, start, input[..i]).output
      invariant CipherState(newIndex, newPreviousValue) == EncryptRun(key, start, input[..i]).final
    {
      EncryptRunSnoc(key, start, input[..i], input[i]);
      assert input[..i + 1] == input[..i] + [input[i]];
      var encrypted := Mask(data[i], newPreviousValue, key[newIndex]);
      var incremented: u8 := newIndex + 1;
      newIndex := incremented % |key|;
      newPreviousValue := encrypted;
      data[i] := encrypted;
    }
    assert input[..data.Length] == input;
  }

  class EncrypterHalf {
    const key: seq<bv8>
    var index: u8
    var previousValue: bv8

    ghost predicate Valid()
      reads this
    {
      ValidState(key, CipherState(index, previousValue))
    }

    /** The cipher state this half will encrypt the next byte with. */
    function State(): CipherState
      reads this
    {
      CipherState(index, previousValue)
    }

    /** The half of a connection that uses the session key itself as cipher key. */
    constructor FromSessionKey(sessionKey: SessionKey)
      ensures Valid()
      ensures key == sessionKey && |key| == SESSION_KEY_LENGTH
      ensures State() == INITIAL
    {
      key := sessionKey;
      index := 0;
      previousValue := 0;
    }

    /** Encrypts `data` in place and advances the state past it. */
    method Encrypt(data: array<bv8>)
      requires Valid()
      modifies this, data
      ensures Valid()
      ensures data[..] == EncryptRun(key, old(State()), old(data[..])).output
      ensures State() == EncryptRun(key, old(State()), old(data[..])).final
    {
      index, previousValue := EncryptInPlace(data, key, index, previousValue);
    }

    /** Encodes a server header (size big-endian, opcode little-endian u16) and encrypts it. */
    method EncryptServerHeader(size: u16, opcode: u16) returns (header: seq<bv8>)
      requires Valid()
      modifies this
      ensures Valid()
      ensures header == EncryptRun(key, old(State()), EncodeServerHeader(size, opcode)).output
      ensures State() == EncryptRun(key, old(State()), EncodeServerHeader(size, opcode)).final
    {
      var plain := EncodeServerHeader(size, opcode);
      var buf := new bv8[|plain|](i requires 0 <= i < |plain| => plain[i]);
      assert buf[..] == plain;
      Encrypt(buf);
      header := buf[..];
    }

    /** Encodes a client header (size big-endian, opcode little-endian u32) and encrypts it. */
    method EncryptClientHeader(size: u16, opcode: u32) returns (header: seq<bv8>)
      requires Valid()
      modifies this
      ensures Valid()
      ensures header == EncryptRun(key, old(State()), EncodeClientHeader(size, opcode)).output
      ensures State() == EncryptRun(key, old(State()), EncodeClientHeader(size, opcode)).final
    {
      var plain := EncodeClientHeader(size, opcode);
      var buf := new bv8[|plain|](i requires 0 <= i < |plain| => plain[i]);
      assert buf[..] == plain;
      Encrypt(buf);
      header := buf[..];
    }
  }
}
