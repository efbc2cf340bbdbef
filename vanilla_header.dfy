/**
 * Header encryption for a world connection: the `HeaderCrypto` aggregate of
 * one encrypter half and one decrypter half, and the `ProofSeed` handshake
 * through which users of the crate obtain one.
 *
 * Here the halves are keyed with the 40-byte session key itself.  The world
 * server proof is computed by a collaborator that is not modelled; it is a
 * parameter of type `ProofFunction`, taking the username, the session key
 * and two seeds, in that order.
 */
module VanillaHeader {
  import opened HeaderCipher
  import opened Headers
  import opened Wrappers
  import opened Decrypt
  import opened Encrypt

  /** A username after normalisation; the normalisation rules are not part of this model. */
  type NormalizedString = string

  /** The world server proof: username, session key, then the two seeds. */
  type ProofFunction = (NormalizedString, SessionKey, u32, u32) -> Digest

  /** Abstract value of a `HeaderCrypto`: the key and state of each half. */
  datatype CryptoView = CryptoView(
    encryptKey: seq<bv8>, encryptState: CipherState,
    decryptKey: seq<bv8>, decryptState: CipherState)

  /** What a freshly built `HeaderCrypto` looks like: both halves keyed with the session key, at the start. */
  function FreshView(sessionKey: SessionKey): CryptoView {
    CryptoView(sessionKey, INITIAL, sessionKey, INITIAL)
  }

  /** The server's answer to a proof that does not match: both proofs, for diagnostics. */
  datatype MatchProofsError = MatchProofsError(clientProof: Digest, serverProof: Digest)

  /** Recombining halves whose keys differ. */
  datatype UnsplitError = KeyMismatch

  class HeaderCrypto {
    const decryptHalf: DecrypterHalf
    const encryptHalf: EncrypterHalf

    ghost predicate Valid()
      reads this, decryptHalf, encryptHalf
    {
      decryptHalf.Valid() && encryptHalf.Valid()
    }

    function View(): CryptoView
      reads this, decryptHalf, encryptHalf
    {
      CryptoView(encryptHalf.key, encryptHalf.State(), decryptHalf.key, decryptHalf.State())
    }

    /** Both halves keyed directly with the same session key, each at the start of its stream. */
    constructor (sessionKey: SessionKey)
      ensures Valid() && fresh(decryptHalf) && fresh(encryptHalf)
      ensures View() == FreshView(sessionKey)
    {
      decryptHalf := new DecrypterHalf.FromSessionKey(sessionKey);
      encryptHalf := new EncrypterHalf.FromSessionKey(sessionKey);
    }

    /** Takes ownership of two existing halves. */
    constructor FromHalves(e: EncrypterHalf, d: DecrypterHalf)
      ensures encryptHalf == e && decryptHalf == d
    {
      decryptHalf := d;
      encryptHalf := e;
    }

    /** Direct access to the decrypter half. */
    function Decrypter(): (d: DecrypterHalf)
      reads this
      ensures d == decryptHalf
    {
      decryptHalf
    }

    /** Direct access to the encrypter half. */
    function Encrypter(): (e: EncrypterHalf)
      reads this
      ensures e == encryptHalf
    {
      encryptHalf
    }

    /** Encrypts `data` in place with the encrypter half; the decrypter half is untouched. */
    method Encrypt(data: array<bv8>)
      requires Valid()
      modifies encryptHalf, data
      ensures Valid()
      ensures data[..] == EncryptRun(encryptHalf.key, old(encryptHalf.State()), old(data[..])).output
      ensures encryptHalf.State() == EncryptRun(encryptHalf.key, old(encryptHalf.State()), old(data[..])).final
      ensures decryptHalf.State() == old(decryptHalf.State())
    {
      encryptHalf.Encrypt(data);
    }

    /** Decrypts `data` in place with the decrypter half; the encrypter half is untouched. */
    method Decrypt(data: array<bv8>)
      requires Valid()
      modifies decryptHalf, data
      ensures Valid()
      ensures data[..] == DecryptRun(decryptHalf.key, old(decryptHalf.State()), old(data[..])).output
      ensures decryptHalf.State() == DecryptRun(decryptHalf.key, old(decryptHalf.State()), old(data[..])).final
      ensures encryptHalf.State() == old(encryptHalf.State())
    {
      decryptHalf.Decrypt(data);
    }

    method EncryptServerHeader(size: u16, opcode: u16) returns (header: seq<bv8>)
      requires Valid()
      modifies encryptHalf
      ensures Valid()
      ensures header == EncryptRun(encryptHalf.key, old(encryptHalf.State()), EncodeServerHeader(size, opcode)).output
      ensures encryptHalf.State()
              == EncryptRun(encryptHalf.key, old(encryptHalf.State()), EncodeServerHeader(size, opcode)).final
      ensures decryptHalf.State() == old(decryptHalf.State())
    {
      header := encryptHalf.EncryptServerHeader(size, opcode);
    }

    method EncryptClientHeader(size: u16, opcode: u32) returns (header: seq<bv8>)
      requires Valid()
      modifies encryptHalf
      ensures Valid()
      ensures header == EncryptRun(encryptHalf.key, old(encryptHalf.State()), EncodeClientHeader(size, opcode)).output
      ensures encryptHalf.State()
              == EncryptRun(encryptHalf.key, old(encryptHalf.State()), EncodeClientHeader(size, opcode)).final
      ensures decryptHalf.State() == old(decryptHalf.State())
    {
      header := encryptHalf.EncryptClientHeader(size, opcode);
    }

    method ReadAndDecryptServerHeader(reader: ReadExact) returns (r: Result<ServerHeader, IoError>)
      requires Valid()
      requires reader.Filled? ==> |reader.bytes| == SERVER_HEADER_LENGTH
      modifies decryptHalf
      ensures Valid()
      ensures reader.Failed? ==> r == Err(reader.error) && decryptHalf.State() == old(decryptHalf.State())
      ensures reader.Filled? ==>
                r == Ok(DecodeServerHeader(DecryptRun(decryptHalf.key, old(decryptHalf.State()), reader.bytes).output))
                && decryptHalf.State() == DecryptRun(decryptHalf.key, old(decryptHalf.State()), reader.bytes).final
      ensures encryptHalf.State() == old(encryptHalf.State())
    {
      r := decryptHalf.ReadAndDecryptServerHeader(reader);
    }

    method ReadAndDecryptClientHeader(reader: ReadExact) returns (r: Result<ClientHeader, IoError>)
      requires Valid()
      requires reader.Filled? ==> |reader.bytes| == CLIENT_HEADER_LENGTH
      modifies decryptHalf
      ensures Valid()
      ensures reader.Failed? ==> r == Err(reader.error) && decryptHalf.State() == old(decryptHalf.State())
      ensures reader.Filled? ==>
                r == Ok(DecodeClientHeader(DecryptRun(decryptHalf.key, old(decryptHalf.State()), reader.bytes).output))
                && decryptHalf.State() == DecryptRun(decryptHalf.key, old(decryptHalf.State()), reader.bytes).final
      ensures encryptHalf.State() == old(encryptHalf.State())
    {
      r := decryptHalf.ReadAndDecryptClientHeader(reader);
    }

    method DecryptServerHeader(data: seq<bv8>) returns (header: ServerHeader)
      requires Valid()
      requires |data| == SERVER_HEADER_LENGTH
      modifies decryptHalf
      ensures Valid()
      ensures header == DecodeServerHeader(DecryptRun(decryptHalf.key, old(decryptHalf.State()), data).output)
      ensures decryptHalf.State() == DecryptRun(decryptHalf.key, old(decryptHalf.State()), data).final
      ensures encryptHalf.State() == old(encryptHalf.State())
    {
      header := decryptHalf.DecryptServerHeader(data);
    }

    /** Decrypts a 6-byte client header through `Decrypt`, then decodes size and opcode. */
    method DecryptClientHeader(data: seq<bv8>) returns (header: ClientHeader)
      requires Valid()
      requires |data| == CLIENT_HEADER_LENGTH
      modifies decryptHalf
      ensures Valid()
      ensures header == DecodeClientHeader(DecryptRun(decryptHalf.key, old(decryptHalf.State()), data).output)
      ensures decryptHalf.State() == DecryptRun(decryptHalf.key, old(decryptHalf.State()), data).final
      ensures encryptHalf.State() == old(encryptHalf.State())
    {
      var buf := new bv8[|data|](i requires 0 <= i < |data| => data[i]);
      assert buf[..] == data;
      Decrypt(buf);
      header := ClientHeader(U16FromBeBytes(buf[0], buf[1]), U32FromLeBytes(buf[2], buf[3], buf[4], buf[5]));
    }

    /** Hands out the two halves, unchanged, for the write and the read side of a connection. */
    method Split() returns (e: EncrypterHalf, d: DecrypterHalf)
      requires Valid()
      ensures e == encryptHalf && d == decryptHalf
      ensures e.Valid() && d.Valid()
      ensures CryptoView(e.key, e.State(), d.key, d.State()) == View()
    {
      e, d := encryptHalf, decryptHalf;
    }
  }

  /** Recombines two halves into one `HeaderCrypto`, provided they share their key. */
  method Unsplit(e: EncrypterHalf, d: DecrypterHalf) returns (r: Result<HeaderCrypto, UnsplitError>)
    ensures e.key != d.key <==> r.Err?
    ensures r.Err? ==> r.error == KeyMismatch
    ensures r.Ok? ==> fresh(r.value) && r.value.encryptHalf == e && r.value.decryptHalf == d
  {
    if e.key != d.key {
      return Err(KeyMismatch);
    }
    var crypto := new HeaderCrypto.FromHalves(e, d);
    return Ok(crypto);
  }

  /** A handshake seed, sent to the peer and consumed by one of the two handshake paths. */
  datatype ProofSeed = ProofSeed(seed: u32) {

    /** The seed value announced to the peer. */
    function Seed(): (s: u32)
      ensures s == seed
    {
      seed
    }

    /** The proof a client sends: computed with the server's seed first and its own second. */
    function ClientProof(username: NormalizedString, sessionKey: SessionKey, serverSeed: u32,
                         proof: ProofFunction): Digest
    {
      proof(username, sessionKey, serverSeed, seed)
    }

    /**
     * The server's verdict on a claimed client proof: it recomputes the proof with
     * its own seed first and the client's second, and accepts exactly when the
     * two agree, in which case the header crypto is built from the session key.
     */
    function ServerVerdict(username: NormalizedString, sessionKey: SessionKey, clientProof: Digest,
                           clientSeed: u32, proof: ProofFunction): (r: Result<CryptoView, MatchProofsError>)
      ensures r.Err? <==> clientProof != proof(username, sessionKey, seed, clientSeed)
      ensures r.Err? ==> r.error == MatchProofsError(clientProof, proof(username, sessionKey, seed, clientSeed))
      ensures r.Ok? ==> r.value == FreshView(sessionKey)
    {
      var serverProof := proof(username, sessionKey, seed, clientSeed);
      if serverProof != clientProof then
        Err(MatchProofsError(clientProof, serverProof))
      else
        Ok(FreshView(sessionKey))
    }
  }

  /** Client path: never fails; returns the proof to send and the header crypto. */
  method IntoClientHeaderCrypto(proofSeed: ProofSeed, username: NormalizedString, sessionKey: SessionKey,
                                serverSeed: u32, proof: ProofFunction)
    returns (clientProof: Digest, crypto: HeaderCrypto)
    ensures clientProof == proofSeed.ClientProof(username, sessionKey, serverSeed, proof)
    ensures fresh(crypto) && fresh(crypto.decryptHalf) && fresh(crypto.encryptHalf)
    ensures crypto.Valid() && crypto.View() == FreshView(sessionKey)
  {
    clientProof := proofSeed.ClientProof(username, sessionKey, serverSeed, proof);
    crypto := new HeaderCrypto(sessionKey);
  }

  /** Server path: checks the client's proof and builds the header crypto only if it matches. */
  method IntoServerHeaderCrypto(proofSeed: ProofSeed, username: NormalizedString, sessionKey: SessionKey,
                                clientProof: Digest, clientSeed: u32, proof: ProofFunction)
    returns (r: Result<HeaderCrypto, MatchProofsError>)
    ensures var verdict := proofSeed.ServerVerdict(username, sessionKey, clientProof, clientSeed, proof);
            (r.Err? <==> verdict.Err?)
            && (r.Err? ==> r.error == verdict.error)
            && (r.Ok? ==> fresh(r.value) && fresh(r.value.decryptHalf) && fresh(r.value.encryptHalf)
                          && r.value.Valid() && r.value.View() == verdict.value)
  {
    var verdict := proofSeed.ServerVerdict(username, sessionKey, clientProof, clientSeed, proof);
    if verdict.Err? {
      return Err(verdict.error);
    }
    var crypto := new HeaderCrypto(sessionKey);
    return Ok(crypto);
  }

  /**
   * Handshake symmetry: a proof made by a client against the server's seed is
   * accepted by that server when it is given the client's seed, and both sides
   * then hold identical header crypto.
   */
  lemma HandshakeSymmetry(client: ProofSeed, server: ProofSeed, username: NormalizedString,
                          sessionKey: SessionKey, proof: ProofFunction)
    ensures server.ServerVerdict(username, sessionKey,
                                 client.ClientProof(username, sessionKey, server.Seed(), proof),
                                 client.Seed(), proof)
            == Ok(FreshView(sessionKey))
  {
  }

  /** Seed order matters: a client that put its own seed first is rejected, unless the proof ignores the order. */
  lemma SwappedSeedsRejected(client: ProofSeed, server: ProofSeed, username: NormalizedString,
                             sessionKey: SessionKey, proof: ProofFunction)
    requires proof(username, sessionKey, client.seed, server.seed)
             != proof(username, sessionKey, server.seed, client.seed)
    ensures server.ServerVerdict(username, sessionKey,
                                 proof(username, sessionKey, client.seed, server.seed),
                                 client.Seed(), proof).Err?
  {
  }

  /** A client holding another session key is rejected whenever the proof tells the two keys apart. */
  lemma OtherSessionKeyRejected(client: ProofSeed, server: ProofSeed, username: NormalizedString,
                                clientKey: SessionKey, serverKey: SessionKey, proof: ProofFunction)
    requires proof(username, clientKey, server.seed, client.seed)
             != proof(username, serverKey, server.seed, client.seed)
    ensures server.ServerVerdict(username, serverKey,
                                 client.ClientProof(username, clientKey, server.Seed(), proof),
                                 client.Seed(), proof).Err?
  {
  }
}
