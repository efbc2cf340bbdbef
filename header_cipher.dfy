/**
 * The byte-chained transform that obfuscates world packet headers.
 *
 * The key is used as a circular keystream and every byte is chained to the
 * ciphertext byte before it.  Decryption of a ciphertext byte `c` with state
 * `(index, previous)` yields `(c - previous) XOR key[index]`; encryption of a
 * plaintext byte `p` yields `(p XOR key[index]) + previous`, both modulo 256.
 * Either way the index then moves one step around the key and `previous`
 * becomes the ciphertext byte.
 *
 * The functions here are the specification that the in-place loops of the
 * encrypter and decrypter halves are proved against.
 */
module HeaderCipher {

  /** An unsigned 8-bit integer, the Rust type of the keystream index. */
  type u8 = x: int | 0 <= x < 0x100

  /** Length of the session key produced by the SRP6 exchange. */
  const SESSION_KEY_LENGTH: nat := 40
  /** Length of a proof, which is also the length of an HMAC-SHA1 digest. */
  const PROOF_LENGTH: nat := 20

  type SessionKey = s: seq<bv8> | |s| == SESSION_KEY_LENGTH witness seq(40, _ => 0)
  type Digest = s: seq<bv8> | |s| == PROOF_LENGTH witness seq(20, _ => 0)

  /** A key usable as keystream: non-empty, and short enough for a u8 index to wrap around it. */
  predicate ValidKey(key: seq<bv8>) {
    0 < |key| <= 0xFF
  }

  /** The mutable part of a cipher half: the keystream index and the last ciphertext byte. */
  datatype CipherState = CipherState(index: u8, previousValue: bv8)

  /** The state every half starts a session with. */
  const INITIAL: CipherState := CipherState(0, 0)

  predicate ValidState(key: seq<bv8>, st: CipherState) {
    ValidKey(key) && st.index < |key|
  }

  /** `(index + 1) % L`, where the increment is done in u8 and so must not overflow. */
  function NextIndex(key: seq<bv8>, index: u8): (r: u8)
    requires ValidKey(key) && index < |key|
    ensures r < |key|
    ensures r == if index + 1 == |key| then 0 else index + 1
  {
    var incremented: u8 := index + 1;
    assert incremented % |key| == if incremented == |key| then 0 else incremented by {
      if incremented == |key| {
        ModUnique(incremented, |key|, 1, 0);
      } else {
        ModUnique(incremented, |key|, 0, incremented);
      }
    }
    incremented % |key|
  }

  /** The plaintext byte for ciphertext byte `encrypted`: `(encrypted - previous) XOR keyByte`, wrapping. */
  function Unmask(encrypted: bv8, previous: bv8, keyByte: bv8): bv8 {
    (encrypted - previous) ^ keyByte
  }

  /** The ciphertext byte for plaintext byte `plain`: `(plain XOR keyByte) + previous`, wrapping. */
  function Mask(plain: bv8, previous: bv8, keyByte: bv8): bv8 {
    (plain ^ keyByte) + previous
  }

  /** Unmasking with the same previous byte and key byte undoes masking. */
  lemma UnmaskUndoesMask(b: bv8, previous: bv8, keyByte: bv8)
    ensures Unmask(Mask(b, previous, keyByte), previous, keyByte) == b
  {
    var masked := (b ^ keyByte) + previous;
    assert masked - previous == b ^ keyByte;
    assert (b ^ keyByte) ^ keyByte == b;
  }

  /** Masking with the same previous byte and key byte undoes unmasking. */
  lemma MaskUndoesUnmask(b: bv8, previous: bv8, keyByte: bv8)
    ensures Mask(Unmask(b, previous, keyByte), previous, keyByte) == b
  {
    var unmasked := (b - previous) ^ keyByte;
    assert unmasked ^ keyByte == b - previous;
    assert (b - previous) + previous == b;
  }

  /** One decryption step: the plaintext byte and the state after it. */
  function DecryptByte(key: seq<bv8>, st: CipherState, encrypted: bv8): (r: (bv8, CipherState))
    requires ValidState(key, st)
    ensures ValidState(key, r.1)
  {
    (Unmask(encrypted, st.previousValue, key[st.index]), CipherState(NextIndex(key, st.index), encrypted))
  }

  /** One encryption step: the ciphertext byte and the state after it. */
  function EncryptByte(key: seq<bv8>, st: CipherState, plain: bv8): (r: (bv8, CipherState))
    requires ValidState(key, st)
    ensures ValidState(key, r.1)
  {
    var encrypted := Mask(plain, st.previousValue, key[st.index]);
    (encrypted, CipherState(NextIndex(key, st.index), encrypted))
  }

  /** The bytes a transform produces from a buffer, and the state it leaves behind. */
  datatype Run = Run(output: seq<bv8>, final: CipherState)

  /** Decryption of a whole buffer, byte after byte, starting from `st`. */
  function DecryptRun(key: seq<bv8>, st: CipherState, data: seq<bv8>): (r: Run)
    requires ValidState(key, st)
    ensures |r.output| == |data|
    ensures ValidState(key, r.final)
    decreases |data|
  {
    if data == [] then Run([], st)
    else
      var step := DecryptByte(key, st, data[0]);
      var rest := DecryptRun(key, step.1, data[1..]);
      Run([step.0] + rest.output, rest.final)
  }

  /** Encryption of a whole buffer, byte after byte, starting from `st`. */
  function EncryptRun(key: seq<bv8>, st: CipherState, data: seq<bv8>): (r: Run)
    requires ValidState(key, st)
    ensures |r.output| == |data|
    ensures ValidState(key, r.final)
    decreases |data|
  {
    if data == [] then Run([], st)
    else
      var step := EncryptByte(key, st, data[0]);
      var rest := EncryptRun(key, step.1, data[1..]);
      Run([step.0] + rest.output, rest.final)
  }

  /** The ciphertext byte that byte `k` of a buffer is chained to. */
  function PrecedingCipherByte(st: CipherState, cipher: seq<bv8>, k: nat): bv8
    requires k <= |cipher|
  {
    if k == 0 then st.previousValue else cipher[k - 1]
  }

  lemma MulAtLeast(d: int, n: int)
    requires d >= 1 && n > 0
    ensures d * n >= n
  {
  }

  /** Euclidean remainders are unique. */
  lemma ModUnique(a: int, n: int, q: int, r: int)
    requires n > 0 && 0 <= r < n && a == q * n + r
    ensures a % n == r
  {
    var q', r' := a / n, a % n;
    assert (q' - q) * n == r - r';
    if q' - q >= 1 {
      MulAtLeast(q' - q, n);
    } else if q - q' >= 1 {
      MulAtLeast(q - q', n);
    }
  }

  lemma AddModulus(x: nat, n: nat)
    requires n > 0
    ensures (n + x) % n == x % n
  {
    var q, r := x / n, x % n;
    assert n + x == (q + 1) * n + r;
    ModUnique(n + x, n, q + 1, r);
  }

  /** Moving the index one step and then `k` more is moving it `k + 1` steps. */
  lemma NextIndexShift(key: seq<bv8>, index: u8, k: nat)
    requires ValidKey(key) && index < |key|
    ensures (NextIndex(key, index) + k) % |key| == (index + 1 + k) % |key|
  {
    if index + 1 == |key| {
      AddModulus(k, |key|);
    }
  }

  /** Closed form of decryption: byte k uses key byte `(index + k) % L` and the ciphertext byte before it. */
  lemma {:induction false} DecryptRunAt(key: seq<bv8>, st: CipherState, cipher: seq<bv8>, k: nat)
    requires ValidState(key, st) && k < |cipher|
    ensures DecryptRun(key, st, cipher).output[k]
            == Unmask(cipher[k], PrecedingCipherByte(st, cipher, k), key[(st.index + k) % |key|])
    decreases |cipher|
  {
    if k > 0 {
      var step := DecryptByte(key, st, cipher[0]);
      var tail := cipher[1..];
      DecryptRunAt(key, step.1, tail, k - 1);
      assert (step.1.index + (k - 1)) % |key| == (st.index + k) % |key| by {
        NextIndexShift(key, st.index, k - 1);
      }
      assert DecryptRun(key, st, cipher).output[k] == DecryptRun(key, step.1, tail).output[k - 1];
      assert tail[k - 1] == cipher[k];
      assert PrecedingCipherByte(step.1, tail, k - 1) == PrecedingCipherByte(st, cipher, k);
    } else {
      ModUnique(st.index, |key|, 0, st.index);
      var step := DecryptByte(key, st, cipher[0]);
      assert DecryptRun(key, st, cipher).output[0] == step.0;
      assert PrecedingCipherByte(st, cipher, 0) == st.previousValue;
    }
  }

  /** After decrypting a buffer the index has moved |buffer| steps and `previous` is the last ciphertext byte. */
  lemma {:induction false} DecryptRunFinal(key: seq<bv8>, st: CipherState, cipher: seq<bv8>)
    requires ValidState(key, st)
    ensures DecryptRun(key, st, cipher).final
            == CipherState((st.index + |cipher|) % |key|, PrecedingCipherByte(st, cipher, |cipher|))
    decreases |cipher|
  {
    if cipher != [] {
      var step := DecryptByte(key, st, cipher[0]);
      DecryptRunFinal(key, step.1, cipher[1..]);
      assert (step.1.index + (|cipher| - 1)) % |key| == (st.index + |cipher|) % |key| by {
        NextIndexShift(key, st.index, |cipher| - 1);
      }
    }
  }

  /** Closed form of encryption: byte k uses key byte `(index + k) % L` and the ciphertext byte produced before it. */
  lemma {:induction false} EncryptRunAt(key: seq<bv8>, st: CipherState, plain: seq<bv8>, k: nat)
    requires ValidState(key, st) && k < |plain|
    ensures var out := EncryptRun(key, st, plain).output;
            out[k] == Mask(plain[k], PrecedingCipherByte(st, out, k), key[(st.index + k) % |key|])
    decreases |plain|
  {
    if k > 0 {
      var step := EncryptByte(key, st, plain[0]);
      var tail := plain[1..];
      var out := EncryptRun(key, st, plain).output;
      var rest := EncryptRun(key, step.1, tail).output;
      EncryptRunAt(key, step.1, tail, k - 1);
      assert (step.1.index + (k - 1)) % |key| == (st.index + k) % |key| by {
        NextIndexShift(key, st.index, k - 1);
      }
      assert out[k] == rest[k - 1];
      assert tail[k - 1] == plain[k];
      assert PrecedingCipherByte(step.1, rest, k - 1) == PrecedingCipherByte(st, out, k);
    } else {
      ModUnique(st.index, |key|, 0, st.index);
    }
  }

  /** After encrypting a buffer the index has moved |buffer| steps and `previous` is the last byte produced. */
  lemma {:induction false} EncryptRunFinal(key: seq<bv8>, st: CipherState, plain: seq<bv8>)
    requires ValidState(key, st)
    ensures var r := EncryptRun(key, st, plain);
            r.final == CipherState((st.index + |plain|) % |key|, PrecedingCipherByte(st, r.output, |plain|))
    decreases |plain|
  {
    if plain != [] {
      var step := EncryptByte(key, st, plain[0]);
      EncryptRunFinal(key, step.1, plain[1..]);
      assert (step.1.index + (|plain| - 1)) % |key| == (st.index + |plain|) % |key| by {
        NextIndexShift(key, st.index, |plain| - 1);
      }
    }
  }

  /** Decrypting `a + b` in one call is decrypting `a`, then `b` from the state `a` left. */
  lemma {:induction false} DecryptRunAppend(key: seq<bv8>, st: CipherState, a: seq<bv8>, b: seq<bv8>)
    requires ValidState(key, st)
    ensures var ra := DecryptRun(key, st, a);
            var rb := DecryptRun(key, ra.final, b);
            DecryptRun(key, st, a + b) == Run(ra.output + rb.output, rb.final)
    decreases |a|
  {
    if a == [] {
      assert a + b == b;
    } else {
      var step := DecryptByte(key, st, a[0]);
      assert (a + b)[0] == a[0] && (a + b)[1..] == a[1..] + b;
      DecryptRunAppend(key, step.1, a[1..], b);
    }
  }

  /** Encrypting `a + b` in one call is encrypting `a`, then `b` from the state `a` left. */
  lemma {:induction false} EncryptRunAppend(key: seq<bv8>, st: CipherState, a: seq<bv8>, b: seq<bv8>)
    requires ValidState(key, st)
    ensures var ra := EncryptRun(key, st, a);
            var rb := EncryptRun(key, ra.final, b);
            EncryptRun(key, st, a + b) == Run(ra.output + rb.output, rb.final)
    decreases |a|
  {
    if a == [] {
      assert a + b == b;
    } else {
      var step := EncryptByte(key, st, a[0]);
      assert (a + b)[0] == a[0] && (a + b)[1..] == a[1..] + b;
      EncryptRunAppend(key, step.1, a[1..], b);
    }
  }

  /** One more byte at the end of a decrypted buffer is one more step. */
  lemma DecryptRunSnoc(key: seq<bv8>, st: CipherState, s: seq<bv8>, x: bv8)
    requires ValidState(key, st)
    ensures var r := DecryptRun(key, st, s);
            var step := DecryptByte(key, r.final, x);
            DecryptRun(key, st, s + [x]) == Run(r.output + [step.0], step.1)
  {
    DecryptRunAppend(key, st, s, [x]);
    var r := DecryptRun(key, st, s);
    assert [x][1..] == [];
    assert DecryptRun(key, r.final, [x]) == Run([DecryptByte(key, r.final, x).0], DecryptByte(key, r.final, x).1);
  }

  /** One more byte at the end of an encrypted buffer is one more step. */
  lemma EncryptRunSnoc(key: seq<bv8>, st: CipherState, s: seq<bv8>, x: bv8)
    requires ValidState(key, st)
    ensures var r := EncryptRun(key, st, s);
            var step := EncryptByte(key, r.final, x);
            EncryptRun(key, st, s + [x]) == Run(r.output + [step.0], step.1)
  {
    EncryptRunAppend(key, st, s, [x]);
    var r := EncryptRun(key, st, s);
    assert [x][1..] == [];
    assert EncryptRun(key, r.final, [x]) == Run([EncryptByte(key, r.final, x).0], EncryptByte(key, r.final, x).1);
  }

  /**
   * Round trip: a decrypter in the same state as the encrypter restores the
   * plaintext, and both end in the same state.
   */
  lemma {:induction false} DecryptUndoesEncrypt(key: seq<bv8>, st: CipherState, plain: seq<bv8>)
    requires ValidState(key, st)
    ensures var e := EncryptRun(key, st, plain);
            DecryptRun(key, st, e.output) == Run(plain, e.final)
    decreases |plain|
  {
    if plain != [] {
      var step := EncryptByte(key, st, plain[0]);
      var rest := EncryptRun(key, step.1, plain[1..]);
      DecryptUndoesEncrypt(key, step.1, plain[1..]);
      var cipher := [step.0] + rest.output;
      assert EncryptRun(key, st, plain).output == cipher;
      assert cipher[0] == step.0 && cipher[1..] == rest.output;
      assert DecryptByte(key, st, step.0) == (plain[0], step.1) by {
        UnmaskUndoesMask(plain[0], st.previousValue, key[st.index]);
      }
      assert DecryptRun(key, st, cipher) == Run([plain[0]] + plain[1..], rest.final);
      assert [plain[0]] + plain[1..] == plain;
    }
  }

  /** The other direction: encrypting what a decrypter produced gives back the ciphertext. */
  lemma {:induction false} EncryptUndoesDecrypt(key: seq<bv8>, st: CipherState, cipher: seq<bv8>)
    requires ValidState(key, st)
    ensures var d := DecryptRun(key, st, cipher);
            EncryptRun(key, st, d.output) == Run(cipher, d.final)
    decreases |cipher|
  {
    if cipher != [] {
      var step := DecryptByte(key, st, cipher[0]);
      var rest := DecryptRun(key, step.1, cipher[1..]);
      EncryptUndoesDecrypt(key, step.1, cipher[1..]);
      var plain := [step.0] + rest.output;
      assert DecryptRun(key, st, cipher).output == plain;
      assert plain[0] == step.0 && plain[1..] == rest.output;
      assert EncryptByte(key, st, step.0) == (cipher[0], step.1) by {
        MaskUndoesUnmask(cipher[0], st.previousValue, key[st.index]);
      }
      assert EncryptRun(key, st, plain) == Run([cipher[0]] + cipher[1..], rest.final);
      assert [cipher[0]] + cipher[1..] == cipher;
    }
  }
}
