/**
 * Two captures of a real 1.12 client session, stated against the model.  In
 * both the server accepted the client's proof, so its `HeaderCrypto` is the
 * one built from the session key; the captured bytes then follow from the
 * cipher alone.  Each header is one lemma on the specification functions
 * that holds for every key agreeing with the capture's key on the bytes the
 * header passes over; the two methods replay the captures on a `HeaderCrypto`
 * object.
 */
module Fixtures {
  import opened HeaderCipher
  import opened Headers
  import opened VanillaHeader

  const SERVER_CAPTURE_KEY: SessionKey := [
    239, 107, 150, 237, 174, 220, 162, 4, 138, 56, 166, 166, 138, 152, 188, 146, 96, 151,
    1, 201, 202, 137, 231, 87, 203, 23, 62, 17, 7, 169, 178, 1, 51, 208, 202, 223, 26, 216,
    250, 9]

  const CLIENT_CAPTURE_KEY: SessionKey := [
    9, 83, 75, 103, 5, 182, 16, 162, 170, 134, 230, 117, 11, 100, 136, 74, 88, 145, 175,
    126, 216, 48, 38, 40, 234, 116, 174, 149, 133, 20, 193, 51, 103, 223, 194, 141, 4, 191,
    161, 96]

  /** One step of a decryption run, unfolded, with the key byte it uses named. */
  lemma DecryptRunStep(key: seq<bv8>, st: CipherState, data: seq<bv8>, keyByte: bv8, out: seq<bv8>, fin: CipherState)
    requires ValidState(key, st) && |data| > 0 && key[st.index] == keyByte
    requires DecryptRun(key, CipherState(NextIndex(key, st.index), data[0]), data[1..]) == Run(out, fin)
    ensures DecryptRun(key, st, data) == Run([Unmask(data[0], st.previousValue, keyByte)] + out, fin)
  {
  }

  /** One step of an encryption run, unfolded, with the key byte it uses named. */
  lemma EncryptRunStep(key: seq<bv8>, st: CipherState, data: seq<bv8>, keyByte: bv8, out: seq<bv8>, fin: CipherState)
    requires ValidState(key, st) && |data| > 0 && key[st.index] == keyByte
    requires
      var c := Mask(data[0], st.previousValue, keyByte);
      EncryptRun(key, CipherState(NextIndex(key, st.index), c), data[1..]) == Run(out, fin)
    ensures EncryptRun(key, st, data) == Run([Mask(data[0], st.previousValue, keyByte)] + out, fin)
  {
  }

  /** The key bytes the first server header passes over. */
  lemma ServerCaptureKeyBytes1()
    ensures SERVER_CAPTURE_KEY[0] == 239 && SERVER_CAPTURE_KEY[1] == 107 && SERVER_CAPTURE_KEY[2] == 150 && SERVER_CAPTURE_KEY[3] == 237
  {
  }

  /** The key bytes the second server header passes over. */
  lemma ServerCaptureKeyBytes2()
    ensures SERVER_CAPTURE_KEY[4] == 174 && SERVER_CAPTURE_KEY[5] == 220 && SERVER_CAPTURE_KEY[6] == 162 && SERVER_CAPTURE_KEY[7] == 4
  {
  }

  /** The key bytes the third server header passes over. */
  lemma ServerCaptureKeyBytes3()
    ensures SERVER_CAPTURE_KEY[8] == 138 && SERVER_CAPTURE_KEY[9] == 56 && SERVER_CAPTURE_KEY[10] == 166 && SERVER_CAPTURE_KEY[11] == 166
  {
  }

  /** The key bytes the fourth server header passes over. */
  lemma ServerCaptureKeyBytes4()
    ensures SERVER_CAPTURE_KEY[12] == 138 && SERVER_CAPTURE_KEY[13] == 152 && SERVER_CAPTURE_KEY[14] == 188 && SERVER_CAPTURE_KEY[15] == 146
  {
  }

  /** The key bytes the first client header passes over. */
  lemma ClientCaptureKeyBytes1()
    ensures CLIENT_CAPTURE_KEY[0] == 9 && CLIENT_CAPTURE_KEY[1] == 83 && CLIENT_CAPTURE_KEY[2] == 75 && CLIENT_CAPTURE_KEY[3] == 103 && CLIENT_CAPTURE_KEY[4] == 5 && CLIENT_CAPTURE_KEY[5] == 182
  {
  }

  /** The key bytes the second client header passes over. */
  lemma ClientCaptureKeyBytes2()
    ensures CLIENT_CAPTURE_KEY[6] == 16 && CLIENT_CAPTURE_KEY[7] == 162 && CLIENT_CAPTURE_KEY[8] == 170 && CLIENT_CAPTURE_KEY[9] == 134 && CLIENT_CAPTURE_KEY[10] == 230 && CLIENT_CAPTURE_KEY[11] == 117
  {
  }

  /** The key bytes the third client header passes over. */
  lemma ClientCaptureKeyBytes3()
    ensures CLIENT_CAPTURE_KEY[12] == 11 && CLIENT_CAPTURE_KEY[13] == 100 && CLIENT_CAPTURE_KEY[14] == 136 && CLIENT_CAPTURE_KEY[15] == 74 && CLIENT_CAPTURE_KEY[16] == 88 && CLIENT_CAPTURE_KEY[17] == 145
  {
  }

  /** The key bytes the fourth client header passes over. */
  lemma ClientCaptureKeyBytes4()
    ensures CLIENT_CAPTURE_KEY[18] == 175 && CLIENT_CAPTURE_KEY[19] == 126 && CLIENT_CAPTURE_KEY[20] == 216 && CLIENT_CAPTURE_KEY[21] == 48 && CLIENT_CAPTURE_KEY[22] == 38 && CLIENT_CAPTURE_KEY[23] == 40
  {
  }

  /** The plaintexts of the server capture, as the header encoding lays them out. */
  lemma ServerCapturePlaintexts()
    ensures EncodeServerHeader(12, 494) == [0, 12, 238, 1]
    ensures EncodeServerHeader(170, 59) == [0, 170, 59, 0]
    ensures EncodeServerHeader(6, 477) == [0, 6, 221, 1]
  {
  }

  /** The plaintexts of the client capture decode to a character-list request and three pings. */
  lemma ClientCapturePlaintexts()
    ensures DecodeClientHeader([0, 4, 55, 0, 0, 0]) == ClientHeader(4, 55)
    ensures DecodeClientHeader([0, 12, 220, 1, 0, 0]) == ClientHeader(12, 476)
  {
  }

  /**
   * The first server header of the capture, size 12 and opcode 494.  Only the key bytes
   * at the indices the header passes over take part.
   */
  lemma ServerCaptureHeader1(key: seq<bv8>, plain: seq<bv8>)
    requires |key| == SESSION_KEY_LENGTH
    requires key[0] == 239 && key[1] == 107 && key[2] == 150 && key[3] == 237
    requires plain == [0, 12, 238, 1]
    ensures EncryptRun(key, CipherState(0, 0), plain)
            == Run([239, 86, 206, 186], CipherState(4, 186))
  {
    EncryptRunStep(key, CipherState(3, 206), plain[3..], key[3], [], CipherState(4, 186));
    EncryptRunStep(key, CipherState(2, 86), plain[2..], key[2], [186], CipherState(4, 186));
    EncryptRunStep(key, CipherState(1, 239), plain[1..], key[1], [206, 186], CipherState(4, 186));
    EncryptRunStep(key, CipherState(0, 0), plain, key[0], [86, 206, 186], CipherState(4, 186));
  }

  /**
   * The second server header of the capture, size 170 and opcode 59.  Only the key bytes
   * at the indices the header passes over take part.
   */
  lemma ServerCaptureHeader2(key: seq<bv8>, plain: seq<bv8>)
    requires |key| == SESSION_KEY_LENGTH
    requires key[4] == 174 && key[5] == 220 && key[6] == 162 && key[7] == 4
    requires plain == [0, 170, 59, 0]
    ensures EncryptRun(key, CipherState(4, 186), plain)
            == Run([104, 222, 119, 123], CipherState(8, 123))
  {
    EncryptRunStep(key, CipherState(7, 119), plain[3..], key[7], [], CipherState(8, 123));
    EncryptRunStep(key, CipherState(6, 222), plain[2..], key[6], [123], CipherState(8, 123));
    EncryptRunStep(key, CipherState(5, 104), plain[1..], key[5], [119, 123], CipherState(8, 123));
    EncryptRunStep(key, CipherState(4, 186), plain, key[4], [222, 119, 123], CipherState(8, 123));
  }

  /**
   * The third server header of the capture, size 6 and opcode 477.  Only the key bytes
   * at the indices the header passes over take part.
   */
  lemma ServerCaptureHeader3(key: seq<bv8>, plain: seq<bv8>)
    requires |key| == SESSION_KEY_LENGTH
    requires key[8] == 138 && key[9] == 56 && key[10] == 166 && key[11] == 166
    requires plain == [0, 6, 221, 1]
    ensures EncryptRun(key, CipherState(8, 123), plain)
            == Run([5, 67, 190, 101], CipherState(12, 101))
  {
    EncryptRunStep(key, CipherState(11, 190), plain[3..], key[11], [], CipherState(12, 101));
    EncryptRunStep(key, CipherState(10, 67), plain[2..], key[10], [101], CipherState(12, 101));
    EncryptRunStep(key, CipherState(9, 5), plain[1..], key[9], [190, 101], CipherState(12, 101));
    EncryptRunStep(key, CipherState(8, 123), plain, key[8], [67, 190, 101], CipherState(12, 101));
  }

  /**
   * The fourth server header of the capture, size 6 and opcode 477.  Only the key bytes
   * at the indices the header passes over take part.
   */
  lemma ServerCaptureHeader4(key: seq<bv8>, plain: seq<bv8>)
    requires |key| == SESSION_KEY_LENGTH
    requires key[12] == 138 && key[13] == 152 && key[14] == 188 && key[15] == 146
    requires plain == [0, 6, 221, 1]
    ensures EncryptRun(key, CipherState(12, 101), plain)
            == Run([239, 141, 238, 129], CipherState(16, 129))
  {
    EncryptRunStep(key, CipherState(15, 238), plain[3..], key[15], [], CipherState(16, 129));
    EncryptRunStep(key, CipherState(14, 141), plain[2..], key[14], [129], CipherState(16, 129));
    EncryptRunStep(key, CipherState(13, 239), plain[1..], key[13], [238, 129], CipherState(16, 129));
    EncryptRunStep(key, CipherState(12, 101), plain, key[12], [141, 238, 129], CipherState(16, 129));
  }

  /** The last three bytes of the first client header. */
  lemma ClientCaptureHeader1Tail(key: seq<bv8>, cipher: seq<bv8>)
    requires |key| == SESSION_KEY_LENGTH
    requires key[3] == 103 && key[4] == 5 && key[5] == 182
    requires cipher == [67, 72, 254]
    ensures DecryptRun(key, CipherState(3, 220), cipher)
            == Run([0, 0, 0], CipherState(6, 254))
  {
    DecryptRunStep(key, CipherState(5, 72), cipher[2..], key[5], [], CipherState(6, 254));
    DecryptRunStep(key, CipherState(4, 67), cipher[1..], key[4], [0], CipherState(6, 254));
    DecryptRunStep(key, CipherState(3, 220), cipher, key[3], [0, 0], CipherState(6, 254));
  }

  /**
   * The first client header of the capture.  Only the key bytes
   * at the indices the header passes over take part.
   */
  lemma ClientCaptureHeader1(key: seq<bv8>, cipher: seq<bv8>)
    requires |key| == SESSION_KEY_LENGTH
    requires key[0] == 9 && key[1] == 83 && key[2] == 75 && key[3] == 103 && key[4] == 5 && key[5] == 182
    requires cipher == [9, 96, 220, 67, 72, 254]
    ensures DecryptRun(key, CipherState(0, 0), cipher)
            == Run([0, 4, 55, 0, 0, 0], CipherState(6, 254))
  {
    ClientCaptureHeader1Tail(key, cipher[3..]);
    DecryptRunStep(key, CipherState(2, 96), cipher[2..], key[2], [0, 0, 0], CipherState(6, 254));
    DecryptRunStep(key, CipherState(1, 9), cipher[1..], key[1], [55, 0, 0, 0], CipherState(6, 254));
    DecryptRunStep(key, CipherState(0, 0), cipher, key[0], [4, 55, 0, 0, 0], CipherState(6, 254));
  }

  /** The last three bytes of the second client header. */
  lemma ClientCaptureHeader2Tail(key: seq<bv8>, cipher: seq<bv8>)
    requires |key| == SESSION_KEY_LENGTH
    requires key[9] == 134 && key[10] == 230 && key[11] == 117
    requires cipher == [185, 159, 20]
    ensures DecryptRun(key, CipherState(9, 50), cipher)
            == Run([1, 0, 0], CipherState(12, 20))
  {
    DecryptRunStep(key, CipherState(11, 159), cipher[2..], key[11], [], CipherState(12, 20));
    DecryptRunStep(key, CipherState(10, 185), cipher[1..], key[10], [0], CipherState(12, 20));
    DecryptRunStep(key, CipherState(9, 50), cipher, key[9], [0, 0], CipherState(12, 20));
  }

  /**
   * The second client header of the capture.  Only the key bytes
   * at the indices the header passes over take part.
   */
  lemma ClientCaptureHeader2(key: seq<bv8>, cipher: seq<bv8>)
    requires |key| == SESSION_KEY_LENGTH
    requires key[6] == 16 && key[7] == 162 && key[8] == 170 && key[9] == 134 && key[10] == 230 && key[11] == 117
    requires cipher == [14, 188, 50, 185, 159, 20]
    ensures DecryptRun(key, CipherState(6, 254), cipher)
            == Run([0, 12, 220, 1, 0, 0], CipherState(12, 20))
  {
    ClientCaptureHeader2Tail(key, cipher[3..]);
    DecryptRunStep(key, CipherState(8, 188), cipher[2..], key[8], [1, 0, 0], CipherState(12, 20));
    DecryptRunStep(key, CipherState(7, 14), cipher[1..], key[7], [220, 1, 0, 0], CipherState(12, 20));
    DecryptRunStep(key, CipherState(6, 254), cipher, key[6], [12, 220, 1, 0, 0], CipherState(12, 20));
  }

  /** The last three bytes of the third client header. */
  lemma ClientCaptureHeader3Tail(key: seq<bv8>, cipher: seq<bv8>)
    requires |key| == SESSION_KEY_LENGTH
    requires key[15] == 74 && key[16] == 88 && key[17] == 145
    requires cipher == [38, 126, 15]
    ensures DecryptRun(key, CipherState(15, 219), cipher)
            == Run([1, 0, 0], CipherState(18, 15))
  {
    DecryptRunStep(key, CipherState(17, 126), cipher[2..], key[17], [], CipherState(18, 15));
    DecryptRunStep(key, CipherState(16, 38), cipher[1..], key[16], [0], CipherState(18, 15));
    DecryptRunStep(key, CipherState(15, 219), cipher, key[15], [0, 0], CipherState(18, 15));
  }

  /**
   * The third client header of the capture.  Only the key bytes
   * at the indices the header passes over take part.
   */
  lemma ClientCaptureHeader3(key: seq<bv8>, cipher: seq<bv8>)
    requires |key| == SESSION_KEY_LENGTH
    requires key[12] == 11 && key[13] == 100 && key[14] == 136 && key[15] == 74 && key[16] == 88 && key[17] == 145
    requires cipher == [31, 135, 219, 38, 126, 15]
    ensures DecryptRun(key, CipherState(12, 20), cipher)
            == Run([0, 12, 220, 1, 0, 0], CipherState(18, 15))
  {
    ClientCaptureHeader3Tail(key, cipher[3..]);
    DecryptRunStep(key, CipherState(14, 135), cipher[2..], key[14], [1, 0, 0], CipherState(18, 15));
    DecryptRunStep(key, CipherState(13, 31), cipher[1..], key[13], [220, 1, 0, 0], CipherState(18, 15));
    DecryptRunStep(key, CipherState(12, 20), cipher, key[12], [12, 220, 1, 0, 0], CipherState(18, 15));
  }

  /** The last three bytes of the fourth client header. */
  lemma ClientCaptureHeader4Tail(key: seq<bv8>, cipher: seq<bv8>)
    requires |key| == SESSION_KEY_LENGTH
    requires key[21] == 48 && key[22] == 38 && key[23] == 40
    requires cipher == [101, 139, 179]
    ensures DecryptRun(key, CipherState(21, 52), cipher)
            == Run([1, 0, 0], CipherState(24, 179))
  {
    DecryptRunStep(key, CipherState(23, 139), cipher[2..], key[23], [], CipherState(24, 179));
    DecryptRunStep(key, CipherState(22, 101), cipher[1..], key[22], [0], CipherState(24, 179));
    DecryptRunStep(key, CipherState(21, 52), cipher, key[21], [0, 0], CipherState(24, 179));
  }

  /**
   * The fourth client header of the capture.  Only the key bytes
   * at the indices the header passes over take part.
   */
  lemma ClientCaptureHeader4(key: seq<bv8>, cipher: seq<bv8>)
    requires |key| == SESSION_KEY_LENGTH
    requires key[18] == 175 && key[19] == 126 && key[20] == 216 && key[21] == 48 && key[22] == 38 && key[23] == 40
    requires cipher == [190, 48, 52, 101, 139, 179]
    ensures DecryptRun(key, CipherState(18, 15), cipher)
            == Run([0, 12, 220, 1, 0, 0], CipherState(24, 179))
  {
    ClientCaptureHeader4Tail(key, cipher[3..]);
    DecryptRunStep(key, CipherState(20, 48), cipher[2..], key[20], [1, 0, 0], CipherState(24, 179));
    DecryptRunStep(key, CipherState(19, 190), cipher[1..], key[19], [220, 1, 0, 0], CipherState(24, 179));
    DecryptRunStep(key, CipherState(18, 15), cipher, key[18], [12, 220, 1, 0, 0], CipherState(24, 179));
  }

  /** Four server headers encrypted one after the other on one fresh `HeaderCrypto`. */
  method ServerHeaderCapture() returns (h1: seq<bv8>, h2: seq<bv8>, h3: seq<bv8>, h4: seq<bv8>)
    ensures h1 == [239, 86, 206, 186]
    ensures h2 == [104, 222, 119, 123]
    ensures h3 == [5, 67, 190, 101]
    ensures h4 == [239, 141, 238, 129]
  {
    var key := SERVER_CAPTURE_KEY;
    var crypto := new HeaderCrypto(key);
    ServerCapturePlaintexts();
    ServerCaptureKeyBytes1();
    ServerCaptureHeader1(key, EncodeServerHeader(12, 494));
    h1 := crypto.EncryptServerHeader(12, 494);
    ServerCaptureKeyBytes2();
    ServerCaptureHeader2(key, EncodeServerHeader(170, 59));
    h2 := crypto.EncryptServerHeader(170, 59);
    ServerCaptureKeyBytes3();
    ServerCaptureHeader3(key, EncodeServerHeader(6, 477));
    h3 := crypto.EncryptServerHeader(6, 477);
    ServerCaptureKeyBytes4();
    ServerCaptureHeader4(key, EncodeServerHeader(6, 477));
    h4 := crypto.EncryptServerHeader(6, 477);
  }

  /** Four client headers decrypted one after the other on one fresh `HeaderCrypto`. */
  method ClientHeaderCapture() returns (c1: ClientHeader, c2: ClientHeader, c3: ClientHeader, c4: ClientHeader)
    ensures c1 == ClientHeader(4, 55)
    ensures c2 == ClientHeader(12, 476) && c3 == ClientHeader(12, 476) && c4 == ClientHeader(12, 476)
  {
    var key := CLIENT_CAPTURE_KEY;
    var crypto := new HeaderCrypto(key);
    ClientCapturePlaintexts();
    ClientCaptureKeyBytes1();
    ClientCaptureHeader1(key, [9, 96, 220, 67, 72, 254]);
    c1 := crypto.DecryptClientHeader([9, 96, 220, 67, 72, 254]);
    ClientCaptureKeyBytes2();
    ClientCaptureHeader2(key, [14, 188, 50, 185, 159, 20]);
    c2 := crypto.DecryptClientHeader([14, 188, 50, 185, 159, 20]);
    ClientCaptureKeyBytes3();
    ClientCaptureHeader3(key, [31, 135, 219, 38, 126, 15]);
    c3 := crypto.DecryptClientHeader([31, 135, 219, 38, 126, 15]);
    ClientCaptureKeyBytes4();
    ClientCaptureHeader4(key, [190, 48, 52, 101, 139, 179]);
    c4 := crypto.DecryptClientHeader([190, 48, 52, 101, 139, 179]);
  }
}
