# World-connection header cipher, modelled in Dafny

This project models the header obfuscation of a game-protocol world
connection (the `wow_srp` Rust crate) and proves properties of the model.
It covers four parts:

- **The byte-chained header cipher.** A cipher half holds a key, a keystream
  `index` and a `previous_value` byte. Decrypting a byte `c` yields
  `(c - previous) mod 256 XOR key[index]`. Encrypting a byte `p` yields
  `c = (p XOR key[index]) + previous mod 256`. Either way the index then moves
  one step round the key and `previous` becomes the ciphertext byte `c`.
- **`DecrypterHalf` and its encrypting counterpart `EncrypterHalf`.** Each is a
  class whose fields are updated in place. A half decrypts or encrypts a buffer
  in place. The decrypter also reads and decodes the fixed-size world headers;
  the encrypter encodes and encrypts them. A server header is
  4 bytes: size as big-endian u16, opcode as little-endian u16. A client header
  is 6 bytes: size as big-endian u16, opcode as little-endian u32.
- **The `HeaderCrypto` aggregate.** It holds one half of each kind and
  delegates each operation to exactly one of them. It can be split into its
  halves and put back together.
- **The `ProofSeed` handshake.** Outside the crate this is the only way to
  obtain a `HeaderCrypto`, since `HeaderCrypto::new` is `pub(crate)`
  (src/vanilla_header/mod.rs:337). The client always gets one. The server gets one only when the
  proof the client sent matches the proof it recomputes.

Modules, one per file:

- `HeaderCipher` (`header_cipher.dfy`). The specification of the cipher:
  - the byte steps `DecryptByte`/`EncryptByte`;
  - whole-buffer runs `DecryptRun`/`EncryptRun`, which return the output and the final state;
  - the lemmas about them: closed form per byte, final state, chunking, and both round trips.
- `Headers` (`headers.dfy`). The header value types and their byte encodings, with round trips in both directions.
- `Decrypt` (`decrypt.dfy`). The in-place loop `DecryptInPlace` and the class `DecrypterHalf`, both proved against `DecryptRun`.
- `Encrypt` (`encrypt.dfy`). The mirror image: `EncryptInPlace` and `EncrypterHalf`.
- `VanillaHeader` (`vanilla_header.dfy`). The class `HeaderCrypto`, `Unsplit`, the datatype `ProofSeed` and the handshake lemmas.
- `Scenarios` (`scenarios.dfy`). The usage promises of the crate's tests, each stated for all inputs:
  - client and server agree;
  - interleaved use does not interfere;
  - split then unsplit loses nothing;
  - a fresh split half equals the combined object;
  - the header helpers match raw encryption.
- `Fixtures` (`fixtures.dfy`). The two captured 1.12 sessions, replayed as concrete checks.
- `Wrappers` (`wrappers.dfy`). `Result` and the outcome of a `read_exact`.

Collaborators become parameters:

- HMAC-SHA1 is a function-typed parameter of `DecrypterHalf.Derived`.
- `calculate_world_server_proof` is the `ProofFunction` parameter of the handshake.
- A reader is the outcome of `read_exact`: either the bytes or an I/O error.

Integer widths are explicit:

- bytes are `bv8`;
- the keystream index is `u8`, a subtype of `int` bounded to `0..255`, and its increment is checked not to overflow;
- header fields are `bv16` and `bv32`.

The header length constants are `CLIENT_HEADER_LENGTH = 2 + 4` and
`SERVER_HEADER_LENGTH = 2 + 2`, built from the field widths as the source
builds them (src/vanilla_header/mod.rs:136-144).

Two construction paths exist in the crate, and the model keeps both:

- **Key derivation.** The TBC `DecrypterHalf::new` derives a 20-byte cipher
  key as HMAC-SHA1 of the session key under a fixed 16-byte seed key
  (src/tbc_header/decrypt.rs:88-103). The vanilla `HeaderCrypto::new`
  (src/vanilla_header/mod.rs:337-342) keys both halves directly with the
  40-byte session key. The model gives the decrypting half two constructors:
  - `Derived`: the TBC path, with a 20-byte key;
  - `FromSessionKey`: the vanilla path, with a 40-byte key.

  The cipher is written once for any key length `L` with `0 < L <= 255`.
- **`decrypt_client_header` on `HeaderCrypto`.** It does not delegate to the
  half. It decrypts through `self.decrypt` and decodes the result itself
  (src/vanilla_header/mod.rs:310-320), and the model does the same.

The vanilla `decrypt.rs` and `encrypt.rs` are not part of this model. Three
things are therefore reconstructed:

- The vanilla decrypter step is taken to be the TBC step of
  src/tbc_header/decrypt.rs:106-122, with the index wrapping at the key
  length instead of at `PROOF_LENGTH` (decrypt.rs:117). For the 20-byte TBC
  key the two agree; for the 40-byte vanilla key the wrap is at 40, which the
  captured client headers need, since they use key bytes 20-23.
- The encrypter step is the algebraic inverse of that step. The round-trip
  test at src/vanilla_header/mod.rs:505-516 requires exactly this inverse.
- `Unsplit`'s failure rule is an assumption. The only use in the crate's
  files here is `e.unsplit(d).unwrap()` on two halves of one object
  (src/vanilla_header/mod.rs:754), which shows only the success case. The
  model assumes that `unsplit` fails with `KeyMismatch` exactly when the two
  halves carry different keys;
  the actual rule lives in `encrypt.rs`.

## Model

| member | source | states |
|---|---|---|
| HeaderCipher.NextIndex | src/tbc_header/decrypt.rs:117 | The next index lies inside the key. It is `index + 1`, or `0` when that reaches the key length. The u8 increment cannot overflow because the key is at most 255 bytes. The source wraps at `PROOF_LENGTH`, which equals the length of the 20-byte TBC key; the vanilla key wraps at 40, as described above. |
| HeaderCipher.DecryptByte | src/tbc_header/decrypt.rs:113-120 | One decryption step leaves a valid state: the index stays inside the key. |
| HeaderCipher.EncryptByte | src/vanilla_header/mod.rs:208-210 | One encryption step leaves a valid state. |
| HeaderCipher.DecryptRun | src/tbc_header/decrypt.rs:106-122 | Decrypting a buffer of any length, the empty one included, never fails. The output has the input's length and the final state is valid. |
| HeaderCipher.EncryptRun | src/vanilla_header/mod.rs:208-210 | Encrypting a buffer of any length never fails. The output has the input's length and the final state is valid. |
| HeaderCipher.UnmaskUndoesMask | src/tbc_header/decrypt.rs:114 | Unmasking a masked byte with the same `previous` and key byte gives the plain byte back. |
| HeaderCipher.MaskUndoesUnmask | src/tbc_header/decrypt.rs:114 | Masking an unmasked byte with the same `previous` and key byte gives the ciphertext byte back. |
| HeaderCipher.DecryptRunAt | src/tbc_header/decrypt.rs:112-120 | Output byte `k` is `(c[k] - prev) XOR key[(index + k) % L]`. Here `prev` is the ciphertext byte before `c[k]`, or the starting `previous_value` when `k = 0`. |
| HeaderCipher.DecryptRunFinal | src/tbc_header/decrypt.rs:117-119 | After a buffer, the index has moved one step per byte modulo `L`. `previous_value` is the last ciphertext byte consumed, not the plaintext produced. An empty buffer leaves `previous_value` as it was. |
| HeaderCipher.EncryptRunAt | src/vanilla_header/mod.rs:208-210 | Output byte `k` is `(p[k] XOR key[(index + k) % L]) + prev`. Here `prev` is the ciphertext byte produced before it, or the starting `previous_value`. |
| HeaderCipher.EncryptRunFinal | src/vanilla_header/mod.rs:208-210 | After a buffer, the encrypter's index has moved one step per byte and its `previous_value` is the last ciphertext byte produced. |
| HeaderCipher.DecryptRunAppend | src/tbc_header/decrypt.rs:24-26 | Decrypting `a + b` in one call gives the same bytes and final state as decrypting `a`, then `b` from the state `a` left. |
| HeaderCipher.EncryptRunAppend | src/vanilla_header/mod.rs:208-210 | Encrypting `a + b` in one call gives the same bytes and final state as encrypting `a`, then `b`. |
| HeaderCipher.DecryptRunSnoc | src/tbc_header/decrypt.rs:112-121 | One more byte at the end of a buffer is one more decryption step from the state the buffer left. |
| HeaderCipher.EncryptRunSnoc | src/vanilla_header/mod.rs:208-210 | One more byte at the end is one more encryption step. |
| HeaderCipher.DecryptUndoesEncrypt | src/vanilla_header/mod.rs:505-516 | A decrypter in the encrypter's starting state restores every plaintext, and both end in the same state. |
| HeaderCipher.EncryptUndoesDecrypt | src/vanilla_header/mod.rs:505-516 | Encrypting what a decrypter produced, from the same state, gives the ciphertext back and the same final state. |
| Headers.EncodeServerHeader | src/vanilla_header/mod.rs:143-144 | The encoding of a server header is `SERVER_HEADER_LENGTH` (4) bytes long. |
| Headers.EncodeClientHeader | src/vanilla_header/mod.rs:136-137 | The encoding of a client header is `CLIENT_HEADER_LENGTH` (6) bytes long. |
| Headers.ServerHeaderRoundTrip | src/tbc_header/decrypt.rs:67-70 | Decoding the encoding of any `(size, opcode)` gives that server header back. |
| Headers.ServerHeaderBytesRoundTrip | src/tbc_header/decrypt.rs:67-68 | Re-encoding the decoded 4 bytes gives those bytes back. Size is big-endian u16 and opcode is little-endian u16. |
| Headers.ClientHeaderRoundTrip | src/tbc_header/decrypt.rs:82-85 | Decoding the encoding of any `(size, opcode)` gives that client header back. |
| Headers.ClientHeaderBytesRoundTrip | src/tbc_header/decrypt.rs:82-83 | Re-encoding the decoded 6 bytes gives those bytes back. Size is big-endian u16 and opcode is little-endian u32. |
| Decrypt.DecryptInPlace | src/tbc_header/decrypt.rs:106-122 | The loop leaves the decryption run of the old contents in the buffer. It returns the run's final index and `previous_value`. |
| Decrypt.DecrypterHalf.Derived | src/tbc_header/decrypt.rs:88-103 | The key is the HMAC-SHA1 digest, under the 16-byte seed key, of the session key, so it is 20 bytes. The state starts at index 0 and `previous_value` 0. |
| Decrypt.DecrypterHalf.FromSessionKey | src/vanilla_header/mod.rs:337-342 | A vanilla half is keyed with the 40-byte session key itself and starts at `(0, 0)`. |
| Decrypt.DecrypterHalf.Decrypt | src/tbc_header/decrypt.rs:24-26 | The buffer and the half's state are the decryption run of the old contents from the old state. |
| Decrypt.DecrypterHalf.DecryptServerHeader | src/tbc_header/decrypt.rs:61-71 | The header is the server decoding of the 4 decrypted bytes, and the state has advanced past them. |
| Decrypt.DecrypterHalf.DecryptClientHeader | src/tbc_header/decrypt.rs:76-86 | The header is the client decoding of the 6 decrypted bytes, and the state has advanced past them. |
| Decrypt.DecrypterHalf.ReadAndDecryptServerHeader | src/tbc_header/decrypt.rs:33-41 | A failed read returns its error and leaves the state untouched. A successful read returns the decoded, decrypted header and advances the state. |
| Decrypt.DecrypterHalf.ReadAndDecryptClientHeader | src/tbc_header/decrypt.rs:48-56 | The same for the 6-byte client header. |
| Encrypt.EncryptInPlace | src/vanilla_header/mod.rs:208-210 | The loop leaves the encryption run of the old contents in the buffer and returns the run's final state. |
| Encrypt.EncrypterHalf.FromSessionKey | src/vanilla_header/mod.rs:337-342 | The encrypter is keyed with the session key and starts at `(0, 0)`. |
| Encrypt.EncrypterHalf.Encrypt | src/vanilla_header/mod.rs:208-210 | The buffer and the state are the encryption run of the old contents from the old state. |
| Encrypt.EncrypterHalf.EncryptServerHeader | src/vanilla_header/mod.rs:244-250 | The 4 bytes returned are the encryption of the server encoding of `(size, opcode)`, and the state has advanced past them. |
| Encrypt.EncrypterHalf.EncryptClientHeader | src/vanilla_header/mod.rs:254-260 | The 6 bytes returned are the encryption of the client encoding, and the state has advanced past them. |
| VanillaHeader.HeaderCrypto.constructor | src/vanilla_header/mod.rs:337-342 | Both halves are new objects, keyed with the same session key, and start at `(0, 0)`. |
| VanillaHeader.HeaderCrypto.FromHalves | src/vanilla_header/mod.rs:754 | The recombined object holds exactly the two given halves. |
| VanillaHeader.HeaderCrypto.Decrypter | src/vanilla_header/mod.rs:193-195 | It returns the contained decrypter itself, not a copy, so changes made through it are changes to this `HeaderCrypto`. |
| VanillaHeader.HeaderCrypto.Encrypter | src/vanilla_header/mod.rs:199-201 | It returns the contained encrypter itself. |
| VanillaHeader.HeaderCrypto.Encrypt | src/vanilla_header/mod.rs:208-210 | It encrypts with the encrypter half only. The decrypter's state is unchanged. |
| VanillaHeader.HeaderCrypto.Decrypt | src/vanilla_header/mod.rs:267-269 | It decrypts with the decrypter half only. The encrypter's state is unchanged. |
| VanillaHeader.HeaderCrypto.EncryptServerHeader | src/vanilla_header/mod.rs:244-250 | It delegates to the encrypter and leaves the decrypter untouched. |
| VanillaHeader.HeaderCrypto.EncryptClientHeader | src/vanilla_header/mod.rs:254-260 | It delegates to the encrypter and leaves the decrypter untouched. |
| VanillaHeader.HeaderCrypto.ReadAndDecryptServerHeader | src/vanilla_header/mod.rs:276-281 | On a failed read, it returns the error and no state changes. Otherwise it returns the decrypted server header and only the decrypter advances. |
| VanillaHeader.HeaderCrypto.ReadAndDecryptClientHeader | src/vanilla_header/mod.rs:288-293 | The same for the client header. |
| VanillaHeader.HeaderCrypto.DecryptServerHeader | src/vanilla_header/mod.rs:299-304 | It delegates to the decrypter and leaves the encrypter untouched. |
| VanillaHeader.HeaderCrypto.DecryptClientHeader | src/vanilla_header/mod.rs:310-320 | It decrypts 6 bytes with the decrypter half. It then decodes a big-endian u16 size and a little-endian u32 opcode, and leaves the encrypter untouched. |
| VanillaHeader.HeaderCrypto.Split | src/vanilla_header/mod.rs:333-335 | It returns exactly the two contained halves, with the keys and states they had. |
| VanillaHeader.Unsplit | src/vanilla_header/mod.rs:754 | Under the assumed rule described above, it fails with `KeyMismatch` if and only if the halves' keys differ. On success the new object holds exactly those two halves. |
| VanillaHeader.ProofSeed.Seed | src/vanilla_header/mod.rs:375-377 | It announces the seed this `ProofSeed` holds, the same one its proof computations use. |
| VanillaHeader.ProofSeed.ServerVerdict | src/vanilla_header/mod.rs:421-435 | It returns an error exactly when the claimed proof differs from `proof(username, key, own seed, client seed)`. The error carries both proofs. Otherwise it returns a fresh `HeaderCrypto` for the session key. |
| VanillaHeader.IntoClientHeaderCrypto | src/vanilla_header/mod.rs:385-401 | It never fails. It returns `proof(username, key, server seed, own seed)` and a new `HeaderCrypto` keyed with the session key at `(0, 0)`. |
| VanillaHeader.IntoServerHeaderCrypto | src/vanilla_header/mod.rs:414-436 | It fails exactly when the verdict rejects, returning the verdict's error. Otherwise it returns a new `HeaderCrypto` equal to the one the client builds. |
| VanillaHeader.HandshakeSymmetry | src/vanilla_header/mod.rs:494-503 | A proof a client computes against a server's seed is accepted by that server when it is given the client's seed. Both sides then hold the same fresh crypto. |
| VanillaHeader.SwappedSeedsRejected | src/vanilla_header/mod.rs:391-396 | A proof computed with the two seeds swapped is rejected whenever the proof function depends on their order. |
| VanillaHeader.OtherSessionKeyRejected | src/vanilla_header/mod.rs:421-433 | A client holding another session key is rejected whenever the proof function tells the two keys apart. |
| Scenarios.ClientAndServerAgree | src/vanilla_header/mod.rs:484-517 | After a successful handshake, client encrypt followed by server decrypt restores any data. So does server encrypt followed by client decrypt. |
| Scenarios.MixedUse | src/vanilla_header/mod.rs:673-718 | Encrypting and decrypting alternately, `step` bytes at a time, on one `HeaderCrypto`, gives the one-shot encryption and decryption of the whole buffer. |
| Scenarios.SplitAndUnsplit | src/vanilla_header/mod.rs:720-771 | Using the combined object, then the split halves, then the recombined object, gives the output of one uninterrupted run, for any two cut points. |
| Scenarios.EncryptRunInThreeParts | src/vanilla_header/mod.rs:746-757 | Encrypting a buffer cut in three parts, each part from where the previous stopped, equals encrypting it whole. |
| Scenarios.DecryptRunInThreeParts | src/vanilla_header/mod.rs:746-757 | The same for decryption. |
| Scenarios.FreshCombinedAndSplitAgree | src/vanilla_header/mod.rs:639-669 | A fresh combined object and a fresh split half produce the same output, and both equal the one-shot run. This holds for encryption and decryption alike (src/vanilla_header/mod.rs:882-911). |
| Scenarios.HeaderHelpersAgree | src/vanilla_header/mod.rs:773-868 | Client, server, client and server headers through the encrypting helpers give exactly one raw encryption of the four encodings joined. Twenty wire bytes through `read_and_decrypt_client_header`, `read_and_decrypt_server_header`, `decrypt_client_header` and `decrypt_server_header`, in that order, give the decodings of bytes 0-5, 6-9, 10-15 and 16-19 of one raw decryption of the twenty bytes. |
| Scenarios.EncryptWithHeaderHelpers | src/vanilla_header/mod.rs:812-823 | The four encrypting helper calls in a row return one encryption run of the four encodings joined, and leave the encrypter in that run's final state. The decrypter is untouched. |
| Scenarios.DecryptWithHeaderHelpers | src/vanilla_header/mod.rs:828-867 | The four decrypting helpers in order give the decodings of the runs over bytes 0-5, 6-9, 10-15 and 16-19. Each run starts where the previous one stopped. The encrypter is untouched. |
| Scenarios.HeaderSlicesOfRun | src/vanilla_header/mod.rs:827-867 | One decryption of twenty bytes, cut at 6, 10 and 16, is the four header-sized runs chained state to state. |
| Scenarios.EncryptRunInFourParts | src/vanilla_header/mod.rs:812-825 | Encrypting four buffers joined is encrypting each from the state the previous one left, with the same final state. |
| Scenarios.DecryptRunInFourParts | src/vanilla_header/mod.rs:827-867 | Decrypting four buffers joined is decrypting each from the state the previous one left, with the same final state. |
| Fixtures.ServerCaptureHeader1 | src/vanilla_header/mod.rs:541-543 | For every key that agrees with the captured key on bytes 0-3, the first server header `(12, 494)` encrypts to `[239, 86, 206, 186]` and leaves state `(4, 186)`. |
| Fixtures.ServerCaptureHeader2 | src/vanilla_header/mod.rs:545-547 | From `(4, 186)`, header `(170, 59)` encrypts to `[104, 222, 119, 123]`. |
| Fixtures.ServerCaptureHeader3 | src/vanilla_header/mod.rs:549-551 | From `(8, 123)`, header `(6, 477)` encrypts to `[5, 67, 190, 101]`. |
| Fixtures.ServerCaptureHeader4 | src/vanilla_header/mod.rs:553-555 | From `(12, 101)`, header `(6, 477)` encrypts to `[239, 141, 238, 129]`. |
| Fixtures.ClientCaptureHeader1 | src/vanilla_header/mod.rs:582-588 | The first captured client header decrypts to the bytes of `(4, 55)` and leaves state `(6, 254)`. |
| Fixtures.ClientCaptureHeader1Tail | src/vanilla_header/mod.rs:582 | The last three bytes of that header decrypt to zeros. |
| Fixtures.ClientCaptureHeader2 | src/vanilla_header/mod.rs:594-602 | The second captured client header decrypts to the bytes of `(12, 476)`. |
| Fixtures.ClientCaptureHeader2Tail | src/vanilla_header/mod.rs:594 | Its last three bytes decrypt to `[1, 0, 0]`. |
| Fixtures.ClientCaptureHeader3 | src/vanilla_header/mod.rs:594-602 | The third captured client header decrypts to the bytes of `(12, 476)`. |
| Fixtures.ClientCaptureHeader3Tail | src/vanilla_header/mod.rs:595 | Its last three bytes decrypt to `[1, 0, 0]`. |
| Fixtures.ClientCaptureHeader4 | src/vanilla_header/mod.rs:594-602 | The fourth captured client header decrypts to the bytes of `(12, 476)`. |
| Fixtures.ClientCaptureHeader4Tail | src/vanilla_header/mod.rs:596 | Its last three bytes decrypt to `[1, 0, 0]`. |
| Fixtures.ServerHeaderCapture | src/vanilla_header/mod.rs:519-557 | Four server headers encrypted in a row on one fresh `HeaderCrypto` for the captured session key give exactly the four captured byte strings. |
| Fixtures.ClientHeaderCapture | src/vanilla_header/mod.rs:559-603 | Four captured client headers decrypted in a row give one `(4, 55)` header and then three `(12, 476)` headers. |

## Left out

- HMAC-SHA1 key derivation (src/tbc_header/decrypt.rs:94-96). It is a foreign primitive. It is the `hmacSha1` parameter of `DecrypterHalf.Derived`, which must return 20 bytes.
- `calculate_world_server_proof` (src/vanilla_header/mod.rs:129). It is not part of this model. It is the uninterpreted `ProofFunction` parameter.
- `ProofSeed::new` and `Default` (src/vanilla_header/mod.rs:360-362, 439-445). They draw a seed from `thread_rng`. The seed is an arbitrary `u32` input instead.
- Timing of the proof check. The check at src/vanilla_header/mod.rs:428 is a plain `!=` on 20-byte proofs. The model compares by value and does not model timing.
- `write_encrypted_server_header` and `write_encrypted_client_header` (src/vanilla_header/mod.rs:212-240). They delegate to `encrypt.rs`, which is not part of this model. The order between encrypting and a failed write is therefore unknown.
- VanillaHeader.Unsplit: its failure rule (`KeyMismatch` exactly when the keys differ) is an assumption, because `encrypt.rs`, which defines `unsplit`, is not part of this model.
- Who may build a `HeaderCrypto`. In the crate `HeaderCrypto::new` is `pub(crate)` (src/vanilla_header/mod.rs:337); in the model its constructor and `FromHalves` are public, and `Scenarios` and `Fixtures` call them directly. The model does not restrict construction to the handshake.
- Scenarios.HeaderHelpersAgree: the test first writes a client and a server header with `write_encrypted_client_header` and `write_encrypted_server_header` (src/vanilla_header/mod.rs:812-817). The model uses `encrypt_client_header` and `encrypt_server_header` for those two as well, because the write functions are not modelled.
- `Read`/`Write` plumbing. A reader is only the outcome of `read_exact`: the bytes, or an error.
- `NormalizedString` rules. A username is any string.
- The tests that read files: `tests/encryption/*.txt` and `verify_seed_proof`. They are data files, not logic.
- The concurrency motivation for `split`. Splitting returns the two objects. Nothing stops a caller from keeping the `HeaderCrypto` alive and using the halves through it too. The model does not capture the move semantics that make the Rust `HeaderCrypto` unusable after `split`, or the halves after `unsplit`.
- `verify_login` (src/vanilla_header/mod.rs:605-624). It depends on the real proof function accepting a fixed proof, and that function is a parameter here.
- `Fixtures.ServerHeaderCapture` and `Fixtures.ClientHeaderCapture` build the `HeaderCrypto` from the session key directly, which is what the server path builds after accepting a proof. The handshake of those tests is not replayed, because it needs the real proof function.
- `Scenarios.MixedUse` takes a final chunk shorter than `step` when the buffer length is not a multiple of it. The source test slices a fixed 10 bytes at a time and would panic on such a length.
