/**
 * The usage scenarios the header cipher promises: a client and a server that
 * completed the handshake can talk to each other, encryption and decryption on
 * one `HeaderCrypto` do not disturb each other, splitting and recombining loses
 * nothing, and the header helpers agree with encrypting the raw bytes.
 *
 * Each scenario states its outcome in terms of one-shot runs of the cipher
 * specification from the start of a session.
 */
module Scenarios {
  import opened HeaderCipher
  import opened Headers
  import opened Wrappers
  import opened Decrypt
  import opened Encrypt
  import opened VanillaHeader

  /** A fresh array holding `s`. */
  method ArrayOf(s: seq<bv8>) returns (a: array<bv8>)
    ensures fresh(a) && a[..] == s
  {
    a := new bv8[|s|](i requires 0 <= i < |s| => s[i]);
    assert a[..] == s;
  }

  /** Client encrypts and server decrypts, then the other way round; both directions restore the data. */
  method ClientAndServerAgree(username: NormalizedString, sessionKey: SessionKey,
                              clientSeed: ProofSeed, serverSeed: ProofSeed,
                              original: seq<bv8>, proof: ProofFunction)
    returns (clientToServer: seq<bv8>, serverToClient: seq<bv8>)
    ensures clientToServer == original
    ensures serverToClient == original
  {
    var clientProof, clientCrypto := IntoClientHeaderCrypto(clientSeed, username, sessionKey, serverSeed.Seed(), proof);
    HandshakeSymmetry(clientSeed, serverSeed, username, sessionKey, proof);
    var accepted := IntoServerHeaderCrypto(serverSeed, username, sessionKey, clientProof, clientSeed.Seed(), proof);
    var serverCrypto := accepted.value;

    var data := ArrayOf(original);
    clientCrypto.Encrypt(data);
    serverCrypto.Decrypt(data);
    DecryptUndoesEncrypt(sessionKey, INITIAL, original);
    clientToServer := data[..];

    serverCrypto.Encrypt(data);
    clientCrypto.Decrypt(data);
    DecryptUndoesEncrypt(sessionKey, INITIAL, clientToServer);
    serverToClient := data[..];
  }

  /** Encrypts `chunk` with the encrypter half of `crypto`. */
  method EncryptChunk(crypto: HeaderCrypto, chunk: seq<bv8>) returns (out: seq<bv8>)
    requires crypto.Valid()
    modifies crypto.encryptHalf
    ensures crypto.Valid()
    ensures out == EncryptRun(crypto.encryptHalf.key, old(crypto.encryptHalf.State()), chunk).output
    ensures crypto.encryptHalf.State() == EncryptRun(crypto.encryptHalf.key, old(crypto.encryptHalf.State()), chunk).final
    ensures crypto.decryptHalf.State() == old(crypto.decryptHalf.State())
  {
    var buf := ArrayOf(chunk);
    crypto.Encrypt(buf);
    out := buf[..];
  }

  /** Decrypts `chunk` with the decrypter half of `crypto`. */
  method DecryptChunk(crypto: HeaderCrypto, chunk: seq<bv8>) returns (out: seq<bv8>)
    requires crypto.Valid()
    modifies crypto.decryptHalf
    ensures crypto.Valid()
    ensures out == DecryptRun(crypto.decryptHalf.key, old(crypto.decryptHalf.State()), chunk).output
    ensures crypto.decryptHalf.State() == DecryptRun(crypto.decryptHalf.key, old(crypto.decryptHalf.State()), chunk).final
    ensures crypto.encryptHalf.State() == old(crypto.encryptHalf.State())
  {
    var buf := ArrayOf(chunk);
    crypto.Decrypt(buf);
    out := buf[..];
  }

  /**
   * Mixed use: encrypting and decrypting alternately, `step` bytes at a time,
   * on one `HeaderCrypto`, gives what encrypting and decrypting the whole
   * buffer in one go would.
   */
  method MixedUse(sessionKey: SessionKey, original: seq<bv8>, step: nat)
    returns (encrypted: seq<bv8>, decrypted: seq<bv8>)
    requires step > 0
    ensures encrypted == EncryptRun(sessionKey, INITIAL, original).output
    ensures decrypted == DecryptRun(sessionKey, INITIAL, original).output
  {
    var crypto := new HeaderCrypto(sessionKey);
    encrypted, decrypted := [], [];
    var i := 0;
    while i < |original|
      invariant 0 <= i <= |original|
      invariant crypto.Valid()
      invariant crypto.encryptHalf.key == sessionKey && crypto.decryptHalf.key == sessionKey
      invariant encrypted == EncryptRun(sessionKey, INITIAL, original[..i]).output
      invariant crypto.encryptHalf.State() == EncryptRun(sessionKey, INITIAL, original[..i]).final
      invariant decrypted == DecryptRun(sessionKey, INITIAL, original[..i]).output
      invariant crypto.decryptHalf.State() == DecryptRun(sessionKey, INITIAL, original[..i]).final
      decreases |original| - i
    {
      var j := if i + step <= |original| then i + step else |original|;
      var chunk := original[i..j];
      var e := EncryptChunk(crypto, chunk);
      var d := DecryptChunk(crypto, chunk);
      assert original[..j] == original[..i] + chunk;
      EncryptRunAppend(sessionKey, INITIAL, original[..i], chunk);
      DecryptRunAppend(sessionKey, INITIAL, original[..i], chunk);
      encrypted, decrypted := encrypted + e, decrypted + d;
      i := j;
    }
    assert original[..i] == original;
  }

  /**
   * Splitting: the first `p` bytes go through the combined object, bytes `p`
   * to `q` through the split halves, the rest through the recombined object;
   * the outcome is what one uninterrupted run gives.
   */
  method SplitAndUnsplit(sessionKey: SessionKey, original: seq<bv8>, p: nat, q: nat)
    returns (encrypted: seq<bv8>, decrypted: seq<bv8>)
    requires p <= q <= |original|
    ensures encrypted == EncryptRun(sessionKey, INITIAL, original).output
    ensures decrypted == DecryptRun(sessionKey, INITIAL, original).output
  {
    var crypto := new HeaderCrypto(sessionKey);
    var e1 := EncryptChunk(crypto, original[..p]);
    var d1 := DecryptChunk(crypto, original[..p]);
    ghost var encAfter1 := EncryptRun(sessionKey, INITIAL, original[..p]);
    ghost var decAfter1 := DecryptRun(sessionKey, INITIAL, original[..p]);

    var e, d := crypto.Split();
    var e2 := EncryptWithHalf(e, original[p..q]);
    var d2 := DecryptWithHalf(d, original[p..q]);
    ghost var encAfter2 := EncryptRun(sessionKey, encAfter1.final, original[p..q]);
    ghost var decAfter2 := DecryptRun(sessionKey, decAfter1.final, original[p..q]);
    assert e.State() == encAfter2.final && d.State() == decAfter2.final;

    var recombined := Unsplit(e, d);
    var whole := recombined.value;
    var e3 := EncryptChunk(whole, original[q..]);
    var d3 := DecryptChunk(whole, original[q..]);
    encrypted, decrypted := e1 + e2 + e3, d1 + d2 + d3;
    EncryptRunInThreeParts(sessionKey, original, p, q);
    DecryptRunInThreeParts(sessionKey, original, p, q);
  }

  /** Encrypting a buffer cut at `p` and `q`, each part from where the previous one stopped, is encrypting it whole. */
  lemma EncryptRunInThreeParts(key: seq<bv8>, s: seq<bv8>, p: nat, q: nat)
    requires ValidKey(key) && p <= q <= |s|
    ensures var r1 := EncryptRun(key, INITIAL, s[..p]);
            var r2 := EncryptRun(key, r1.final, s[p..q]);
            var r3 := EncryptRun(key, r2.final, s[q..]);
            r1.output + r2.output + r3.output == EncryptRun(key, INITIAL, s).output
  {
    var r1 := EncryptRun(key, INITIAL, s[..p]);
    var r2 := EncryptRun(key, r1.final, s[p..q]);
    var r12 := EncryptRun(key, INITIAL, s[..q]);
    assert s[..p] + s[p..q] == s[..q];
    EncryptRunAppend(key, INITIAL, s[..p], s[p..q]);
    assert r12 == Run(r1.output + r2.output, r2.final);
    assert s[..q] + s[q..] == s;
    EncryptRunAppend(key, INITIAL, s[..q], s[q..]);
  }

  /** Decrypting a buffer cut at `p` and `q`, each part from where the previous one stopped, is decrypting it whole. */
  lemma DecryptRunInThreeParts(key: seq<bv8>, s: seq<bv8>, p: nat, q: nat)
    requires ValidKey(key) && p <= q <= |s|
    ensures var r1 := DecryptRun(key, INITIAL, s[..p]);
            var r2 := DecryptRun(key, r1.final, s[p..q]);
            var r3 := DecryptRun(key, r2.final, s[q..]);
            r1.output + r2.output + r3.output == DecryptRun(key, INITIAL, s).output
  {
    var r1 := DecryptRun(key, INITIAL, s[..p]);
    var r2 := DecryptRun(key, r1.final, s[p..q]);
    var r12 := DecryptRun(key, INITIAL, s[..q]);
    assert s[..p] + s[p..q] == s[..q];
    DecryptRunAppend(key, INITIAL, s[..p], s[p..q]);
    assert r12 == Run(r1.output + r2.output, r2.final);
    assert s[..q] + s[q..] == s;
    DecryptRunAppend(key, INITIAL, s[..q], s[q..]);
  }

  /** Encrypts `chunk` with a lone encrypter half. */
  method EncryptWithHalf(e: EncrypterHalf, chunk: seq<bv8>) returns (out: seq<bv8>)
    requires e.Valid()
    modifies e
    ensures e.Valid()
    ensures out == EncryptRun(e.key, old(e.State()), chunk).output
    ensures e.State() == EncryptRun(e.key, old(e.State()), chunk).final
  {
    var buf := ArrayOf(chunk);
    e.Encrypt(buf);
    out := buf[..];
  }

  /** Decrypts `chunk` with a lone decrypter half. */
  method DecryptWithHalf(d: DecrypterHalf, chunk: seq<bv8>) returns (out: seq<bv8>)
    requires d.Valid()
    modifies d
    ensures d.Valid()
    ensures out == DecryptRun(d.key, old(d.State()), chunk).output
    ensures d.State() == DecryptRun(d.key, old(d.State()), chunk).final
  {
    var buf := ArrayOf(chunk);
    d.Decrypt(buf);
    out := buf[..];
  }

  /**
   * A freshly built `HeaderCrypto`, combined or split, encrypts and decrypts
   * a buffer the same way.
   */
  method FreshCombinedAndSplitAgree(sessionKey: SessionKey, data: seq<bv8>)
    returns (combinedEncrypted: seq<bv8>, splitEncrypted: seq<bv8>,
             combinedDecrypted: seq<bv8>, splitDecrypted: seq<bv8>)
    ensures combinedEncrypted == splitEncrypted == EncryptRun(sessionKey, INITIAL, data).output
    ensures combinedDecrypted == splitDecrypted == DecryptRun(sessionKey, INITIAL, data).output
  {
    var full := new HeaderCrypto(sessionKey);
    combinedEncrypted := EncryptChunk(full, data);
    var other := new HeaderCrypto(sessionKey);
    var enc, _ := other.Split();
    splitEncrypted := EncryptWithHalf(enc, data);

    full := new HeaderCrypto(sessionKey);
    combinedDecrypted := DecryptChunk(full, data);
    other := new HeaderCrypto(sessionKey);
    var _, dec := other.Split();
    splitDecrypted := DecryptWithHalf(dec, data);
  }

  /**
   * The header helpers agree with the raw transform. One `HeaderCrypto`
   * encrypts a client header, a server header, a client header and a server
   * header through the helpers; another encrypts the four encodings in one
   * `Encrypt`, and the bytes are the same. Then the second object decrypts
   * twenty wire bytes through the four decrypting helpers in order (read a
   * client header, read a server header, decrypt a client header, decrypt a
   * server header), and each header is the decoding of the matching slice of
   * one raw `Decrypt` of the twenty bytes on the first object.
   */
  method HeaderHelpersAgree(sessionKey: SessionKey, clientSize: u16, clientOpcode: u32,
                            serverSize: u16, serverOpcode: u16, wire: seq<bv8>)
    returns (helperBytes: seq<bv8>, rawBytes: seq<bv8>,
             client1: ClientHeader, server1: ServerHeader,
             client2: ClientHeader, server2: ServerHeader, rawDecrypted: seq<bv8>)
    requires |wire| == 2 * (CLIENT_HEADER_LENGTH + SERVER_HEADER_LENGTH)
    ensures var c := EncodeClientHeader(clientSize, clientOpcode);
            var s := EncodeServerHeader(serverSize, serverOpcode);
            rawBytes == EncryptRun(sessionKey, INITIAL, c + s + c + s).output
    ensures helperBytes == rawBytes
    ensures rawDecrypted == DecryptRun(sessionKey, INITIAL, wire).output
    ensures client1 == DecodeClientHeader(rawDecrypted[..6])
    ensures server1 == DecodeServerHeader(rawDecrypted[6..10])
    ensures client2 == DecodeClientHeader(rawDecrypted[10..16])
    ensures server2 == DecodeServerHeader(rawDecrypted[16..])
  {
    var encryption := new HeaderCrypto(sessionKey);
    var helperEncryption := new HeaderCrypto(sessionKey);

    helperBytes := EncryptWithHeaderHelpers(encryption, clientSize, clientOpcode, serverSize, serverOpcode);
    var c := EncodeClientHeader(clientSize, clientOpcode);
    var s := EncodeServerHeader(serverSize, serverOpcode);
    rawBytes := EncryptChunk(helperEncryption, c + s + c + s);

    rawDecrypted := DecryptChunk(encryption, wire);
    client1, server1, client2, server2 := DecryptWithHeaderHelpers(helperEncryption, wire);
    HeaderSlicesOfRun(sessionKey, wire);
  }

  /**
   * A client header, a server header, a client header and a server header
   * through the encrypting helpers: the bytes are one encryption run of the
   * four encodings joined.
   */
  method EncryptWithHeaderHelpers(crypto: HeaderCrypto, clientSize: u16, clientOpcode: u32,
                                  serverSize: u16, serverOpcode: u16)
    returns (bytes: seq<bv8>)
    requires crypto.Valid()
    modifies crypto.encryptHalf
    ensures crypto.Valid()
    ensures var c := EncodeClientHeader(clientSize, clientOpcode);
            var s := EncodeServerHeader(serverSize, serverOpcode);
            var run := EncryptRun(crypto.encryptHalf.key, old(crypto.encryptHalf.State()), c + s + c + s);
            bytes == run.output && crypto.encryptHalf.State() == run.final
    ensures crypto.decryptHalf.State() == old(crypto.decryptHalf.State())
  {
    var c1 := crypto.EncryptClientHeader(clientSize, clientOpcode);
    var s1 := crypto.EncryptServerHeader(serverSize, serverOpcode);
    var c2 := crypto.EncryptClientHeader(clientSize, clientOpcode);
    var s2 := crypto.EncryptServerHeader(serverSize, serverOpcode);
    bytes := c1 + s1 + c2 + s2;
    EncryptRunInFourParts(crypto.encryptHalf.key, old(crypto.encryptHalf.State()),
                          EncodeClientHeader(clientSize, clientOpcode), EncodeServerHeader(serverSize, serverOpcode),
                          EncodeClientHeader(clientSize, clientOpcode), EncodeServerHeader(serverSize, serverOpcode));
  }

  /**
   * Twenty wire bytes through the four decrypting helpers in order: read a
   * client header, read a server header, decrypt a client header, decrypt a
   * server header. Each header decodes the run over its slice, started from
   * the state the previous helper left.
   */
  method DecryptWithHeaderHelpers(crypto: HeaderCrypto, wire: seq<bv8>)
    returns (client1: ClientHeader, server1: ServerHeader, client2: ClientHeader, server2: ServerHeader)
    requires crypto.Valid()
    requires |wire| == 2 * (CLIENT_HEADER_LENGTH + SERVER_HEADER_LENGTH)
    modifies crypto.decryptHalf
    ensures crypto.Valid()
    ensures var key := crypto.decryptHalf.key;
            var r1 := DecryptRun(key, old(crypto.decryptHalf.State()), wire[..6]);
            var r2 := DecryptRun(key, r1.final, wire[6..10]);
            var r3 := DecryptRun(key, r2.final, wire[10..16]);
            var r4 := DecryptRun(key, r3.final, wire[16..]);
            client1 == DecodeClientHeader(r1.output) && server1 == DecodeServerHeader(r2.output)
            && client2 == DecodeClientHeader(r3.output) && server2 == DecodeServerHeader(r4.output)
            && crypto.decryptHalf.State() == r4.final
    ensures crypto.encryptHalf.State() == old(crypto.encryptHalf.State())
  {
    var read1 := crypto.ReadAndDecryptClientHeader(ReadExact.Filled(wire[..6]));
    client1 := read1.value;
    var read2 := crypto.ReadAndDecryptServerHeader(ReadExact.Filled(wire[6..10]));
    server1 := read2.value;
    client2 := crypto.DecryptClientHeader(wire[10..16]);
    server2 := crypto.DecryptServerHeader(wire[16..]);
  }

  /**
   * One decryption run over twenty bytes, cut at 6, 10 and 16, is the four
   * header-sized runs, each from the state the previous one left.
   */
  lemma HeaderSlicesOfRun(key: seq<bv8>, wire: seq<bv8>)
    requires ValidKey(key) && |wire| == 20
    ensures var whole := DecryptRun(key, INITIAL, wire).output;
            var r1 := DecryptRun(key, INITIAL, wire[..6]);
            var r2 := DecryptRun(key, r1.final, wire[6..10]);
            var r3 := DecryptRun(key, r2.final, wire[10..16]);
            var r4 := DecryptRun(key, r3.final, wire[16..]);
            whole[..6] == r1.output && whole[6..10] == r2.output
            && whole[10..16] == r3.output && whole[16..] == r4.output
  {
    assert wire[..6] + wire[6..10] + wire[10..16] + wire[16..] == wire;
    DecryptRunInFourParts(key, INITIAL, wire[..6], wire[6..10], wire[10..16], wire[16..]);
    var r1 := DecryptRun(key, INITIAL, wire[..6]);
    var r2 := DecryptRun(key, r1.final, wire[6..10]);
    var r3 := DecryptRun(key, r2.final, wire[10..16]);
    var r4 := DecryptRun(key, r3.final, wire[16..]);
    FourSlices(DecryptRun(key, INITIAL, wire).output, r1.output, r2.output, r3.output, r4.output);
  }

  /** Slicing four joined pieces of lengths 6, 4, 6 and 4 at the piece boundaries gives the pieces back. */
  lemma FourSlices(whole: seq<bv8>, a: seq<bv8>, b: seq<bv8>, c: seq<bv8>, d: seq<bv8>)
    requires |a| == 6 && |b| == 4 && |c| == 6 && |d| == 4
    requires whole == a + b + c + d
    ensures whole[..6] == a && whole[6..10] == b && whole[10..16] == c && whole[16..] == d
  {
    assert whole[..6] == a;
    assert whole[6..10] == b;
    assert whole[10..16] == c;
    assert whole[16..] == d;
  }

  /** Encrypting four buffers joined is encrypting each from the state the previous one left. */
  lemma EncryptRunInFourParts(key: seq<bv8>, st: CipherState, a: seq<bv8>, b: seq<bv8>, c: seq<bv8>, d: seq<bv8>)
    requires ValidState(key, st)
    ensures var r1 := EncryptRun(key, st, a);
            var r2 := EncryptRun(key, r1.final, b);
            var r3 := EncryptRun(key, r2.final, c);
            var r4 := EncryptRun(key, r3.final, d);
            EncryptRun(key, st, a + b + c + d) == Run(r1.output + r2.output + r3.output + r4.output, r4.final)
  {
    EncryptRunAppend(key, st, a, b);
    EncryptRunAppend(key, st, a + b, c);
    EncryptRunAppend(key, st, a + b + c, d);
  }

  /** Decrypting four buffers joined is decrypting each from the state the previous one left. */
  lemma DecryptRunInFourParts(key: seq<bv8>, st: CipherState, a: seq<bv8>, b: seq<bv8>, c: seq<bv8>, d: seq<bv8>)
    requires ValidState(key, st)
    ensures var r1 := DecryptRun(key, st, a);
            var r2 := DecryptRun(key, r1.final, b);
            var r3 := DecryptRun(key, r2.final, c);
            var r4 := DecryptRun(key, r3.final, d);
            DecryptRun(key, st, a + b + c + d) == Run(r1.output + r2.output + r3.output + r4.output, r4.final)
  {
    DecryptRunAppend(key, st, a, b);
    DecryptRunAppend(key, st, a + b, c);
    DecryptRunAppend(key, st, a + b + c, d);
  }
}
