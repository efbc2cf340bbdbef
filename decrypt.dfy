/**
 * The decrypting half of the header cipher, kept with the reader side of a
 * connection.  The half owns its key and its cipher state and keeps them
 * between calls, so headers must be decrypted in the order they arrived.
 */
module Decrypt {
  import opened HeaderCipher
  import opened Headers
  import opened Wrappers

  /** The fixed public HMAC key under which the session key is hashed into the cipher key. */
  const SEED_KEY: seq<bv8> :=
    [0x38, 0xA7, 0x83, 0x15, 0xF8, 0x92, 0x25, 0x30, 0x71, 0x98, 0x67, 0xB1, 0x8C, 0x04, 0xE2, 0xAA]

  /**
   * Decrypts `data` in place, byte after byte, starting from `(index, previousValue)`,
   * and returns the state after the last byte.
   */
  method DecryptInPlace(data: array<bv8>, key: seq<bv8>, index: u8, previousValue: bv8)
    returns (newIndex: u8, newPreviousValue: bv8)
    requires ValidState(key, CipherState(index, previousValue))
    modifies data
    ensures data[..] == DecryptRun(key, CipherState(index, previousValue), old(data[..])).output
    ensures CipherState(newIndex, newPreviousValue)
            == DecryptRun(key, CipherState(index, previousValue), old(data[..])).final
  {
    ghost var start := CipherState(index, previousValue);
    ghost var input := data[..];
    newIndex, newPreviousValue := index, previousValue;
    for i := 0 to data.Length
      invariant data[i..] == input[i..]
      invariant data[..i] == DecryptRun(key, start, input[..i]).output
      invariant CipherState(newIndex, newPreviousValue) == DecryptRun(key, start, input[..i]).final
    {
      DecryptRunSnoc(key, start, input[..i], input[i]);
      assert input[..i + 1] == input[..i] + [input[i]];
      var encrypted := data[i];
      var unencrypted := Unmask(encrypted, newPreviousValue, key[newIndex]);
      var incremented: u8 := newIndex + 1;
      newIndex := incremented % |key|;
      newPreviousValue := encrypted;
      data[i] := unencrypted;
    }
    assert input[..data.Length] == input;
  }

  class DecrypterHalf {
    const key: seq<bv8>
    var index: u8
    var previousValue: bv8

    ghost predicate Valid()
      reads this
    {
      ValidState(key, CipherState(index, previousValue))
    }

    /** The cipher state this half will decrypt the next byte with. */
    function State(): CipherState
      reads this
    {
      CipherState(index, previousValue)
    }

    /**
     * The half of a connection that uses a derived key: the cipher key is the
     * HMAC-SHA1 digest, under SEED_KEY, of the session key.
     */
    constructor Derived(sessionKey: SessionKey, hmacSha1: (seq<bv8>, seq<bv8>) -> Digest)
      ensures Valid()
      ensures key == hmacSha1(SEED_KEY, sessionKey) && |key| == PROOF_LENGTH
      ensures State() == INITIAL
    {
      key := hmacSha1(SEED_KEY, sessionKey);
      index := 0;
      previousValue := 0;
    }

    /** The half of a connection that uses the session key itself as cipher key. */
    constructor FromSessionKey(sessionKey: SessionKey)
      ensures Valid()
      ensures key == sessionKey && |key| == SESSION_KEY_LENGTH
      ensures State() == INITIAL
    {
      key := sessionKey;
      index := 0;
      previousValue := 0;
    }

    /** Decrypts `data` in place and advances the state past it. */
    method Decrypt(data: array<bv8>)
      requires Valid()
      modifies this, data
      ensures Valid()
      ensures data[..] == DecryptRun(key, old(State()), old(data[..])).output
      ensures State() == DecryptRun(key, old(State()), old(data[..])).final
    {
      index, previousValue := DecryptInPlace(data, key, index, previousValue);
    }

    /** Decrypts a 4-byte server header, then decodes it. */
    method DecryptServerHeader(data: seq<bv8>) returns (header: ServerHeader)
      requires Valid()
      requires |data| == SERVER_HEADER_LENGTH
      modifies this
      ensures Valid()
      ensures header == DecodeServerHeader(DecryptRun(key, old(State()), data).output)
      ensures State() == DecryptRun(key, old(State()), data).final
    {
      var buf := new bv8[|data|](i requires 0 <= i < |data| => data[i]);
      assert buf[..] == data;
      Decrypt(buf);
      header := ServerHeader(U16FromBeBytes(buf[0], buf[1]), U16FromLeBytes(buf[2], buf[3]));
    }

    /** Decrypts a 6-byte client header, then decodes it. */
    method DecryptClientHeader(data: seq<bv8>) returns (header: ClientHeader)
      requires Valid()
      requires |data| == CLIENT_HEADER_LENGTH
      modifies this
      ensures Valid()
      ensures header == DecodeClientHeader(DecryptRun(key, old(State()), data).output)
      ensures State() == DecryptRun(key, old(State()), data).final
    {
      var buf := new bv8[|data|](i requires 0 <= i < |data| => data[i]);
      assert buf[..] == data;
      Decrypt(buf);
      header := ClientHeader(U16FromBeBytes(buf[0], buf[1]), U32FromLeBytes(buf[2], buf[3], buf[4], buf[5]));
    }

    /**
     * Reads a server header from the reader collaborator and decrypts it.  A
     * failed read is passed on before anything is decrypted.
     */
    method ReadAndDecryptServerHeader(reader: ReadExact) returns (r: Result<ServerHeader, IoError>)
      requires Valid()
      requires reader.Filled? ==> |reader.bytes| == SERVER_HEADER_LENGTH
      modifies this
      ensures Valid()
      ensures reader.Failed? ==> r == Err(reader.error) && State() == old(State())
      ensures reader.Filled? ==>
                r == Ok(DecodeServerHeader(DecryptRun(key, old(State()), reader.bytes).output))
                && State() == DecryptRun(key, old(State()), reader.bytes).final
    {
      match reader
      case Failed(e) =>
        return Err(e);
      case Filled(buf) =>
        var header := DecryptServerHeader(buf);
        return Ok(header);
    }

    /**
     * Reads a client header from the reader collaborator and decrypts it.  A
     * failed read is passed on before anything is decrypted.
     */
    method ReadAndDecryptClientHeader(reader: ReadExact) returns (r: Result<ClientHeader, IoError>)
      requires Valid()
      requires reader.Filled? ==> |reader.bytes| == CLIENT_HEADER_LENGTH
      modifies this
      ensures Valid()
      ensures reader.Failed? ==> r == Err(reader.error) && State() == old(State())
      ensures reader.Filled? ==>
                r == Ok(DecodeClientHeader(DecryptRun(key, old(State()), reader.bytes).output))
                && State() == DecryptRun(key, old(State()), reader.bytes).final
    {
      match reader
      case Failed(e) =>
        return Err(e);
      case Filled(buf) =>
        var header := DecryptClientHeader(buf);
        return Ok(header);
    }
  }
}
