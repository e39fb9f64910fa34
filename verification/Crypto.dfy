/** Credential encryption: hex(nonce, ciphertext, tag) over an abstract authenticated cipher. */
module Crypto {
  import opened Common

  const NONCE_SIZE := 12

  // ----- hexadecimal text -----

  const DIGITS := "0123456789abcdef"

  /** The key old releases shipped with: the sixteen digits four times over. */
  const LEGACY_KEY := DIGITS + DIGITS + DIGITS + DIGITS

  function HexValue(c: char): Option<int> {
    if '0' <= c <= '9' then Some(c as int - '0' as int)
    else if 'a' <= c <= 'f' then Some(c as int - 'a' as int + 10)
    else if 'A' <= c <= 'F' then Some(c as int - 'A' as int + 10)
    else None
  }

  function EncodeHex(b: bytes): string {
    if b == [] then "" else [DIGITS[b[0] / 16], DIGITS[b[0] % 16]] + EncodeHex(b[1..])
  }

  function DecodeHex(s: string): Option<bytes> {
    if s == "" then Some([])
    else if |s| == 1 then None
    else
      match (HexValue(s[0]), HexValue(s[1]), DecodeHex(s[2..]))
      case (Some(hi), Some(lo), Some(rest)) => Some([NatByte(hi, lo)] + rest)
      case _ => None
  }

  function NatByte(hi: int, lo: int): byte {
    if 0 <= hi < 16 && 0 <= lo < 16 then hi * 16 + lo else 0
  }

  lemma {:induction false} DigitValue(d: int)
    requires 0 <= d < 16
    ensures HexValue(DIGITS[d]) == Some(d)
  {
    if d < 10 { assert DIGITS[d] == '0' + d as char; } else { assert DIGITS[d] == 'a' + (d - 10) as char; }
  }

  lemma {:induction false} HexRoundTrip(b: bytes)
    ensures DecodeHex(EncodeHex(b)) == Some(b) && |EncodeHex(b)| == 2 * |b|
  {
    if b != [] {
      HexRoundTrip(b[1..]);
      DigitValue(b[0] / 16);
      DigitValue(b[0] % 16);
      var s, rest := EncodeHex(b), EncodeHex(b[1..]);
      assert s == [DIGITS[b[0] / 16], DIGITS[b[0] % 16]] + rest;
      assert s[2..] == rest;
      assert NatByte(b[0] / 16, b[0] % 16) == b[0];
      assert [b[0]] + b[1..] == b;
    }
  }

  // ----- the cipher -----

  /** Sealing and opening with a key and a nonce. */
  datatype Aead = Aead(seal: (bytes, bytes, bytes) -> bytes, open: (bytes, bytes, bytes) -> Option<bytes>)

  /** What was sealed opens to what it was. */
  ghost predicate Sound(a: Aead) {
    forall k, n, p :: a.open(k, n, a.seal(k, n, p)) == Some(p)
  }

  /** A ciphertext opens under one key only. */
  ghost predicate Committing(a: Aead) {
    forall k, k', n, c :: a.open(k, n, c).Some? && a.open(k', n, c).Some? ==> k == k'
  }

  /** The AES key a hexadecimal key stands for. */
  function KeyOf(hexKey: string): Option<bytes> {
    match DecodeHex(hexKey)
    case Some(k) => if |k| in {16, 24, 32} then Some(k) else None
    case None => None
  }

  function Encrypt(a: Aead, plaintext: bytes, hexKey: string, nonce: bytes): Option<string>
    requires |nonce| == NONCE_SIZE
  {
    match KeyOf(hexKey)
    case Some(k) => Some(EncodeHex(nonce + a.seal(k, nonce, plaintext)))
    case None => None
  }

  function Decrypt(a: Aead, ciphertext: string, hexKey: string): Option<bytes> {
    match (KeyOf(hexKey), DecodeHex(ciphertext))
    case (Some(k), Some(data)) =>
      if |data| < NONCE_SIZE then None else a.open(k, data[..NONCE_SIZE], data[NONCE_SIZE..])
    case _ => None
  }

  /** A value encrypted under a key decrypts to itself under that key, and is never empty text. */
  lemma {:induction false} DecryptEncrypt(a: Aead, plaintext: bytes, hexKey: string, nonce: bytes)
    requires Sound(a) && |nonce| == NONCE_SIZE && Encrypt(a, plaintext, hexKey, nonce).Some?
    ensures var c := Encrypt(a, plaintext, hexKey, nonce).value;
            c != "" && Decrypt(a, c, hexKey) == Some(plaintext)
  {
    var data := nonce + a.seal(KeyOf(hexKey).value, nonce, plaintext);
    HexRoundTrip(data);
    assert data[..NONCE_SIZE] == nonce && data[NONCE_SIZE..] == a.seal(KeyOf(hexKey).value, nonce, plaintext);
  }

  lemma {:induction false} OneKeyOpens(a: Aead, ciphertext: string, hexKey: string, other: string)
    requires Committing(a) && Decrypt(a, ciphertext, hexKey).Some? && Decrypt(a, ciphertext, other).Some?
    ensures KeyOf(hexKey) == KeyOf(other)
  {
  }

  /** What is stored: the twelve nonce bytes, then what the cipher made, in hexadecimal; only a bad key is refused. */
  lemma {:induction false} EncryptLayout(a: Aead, plaintext: bytes, hexKey: string, nonce: bytes)
    requires |nonce| == 12
    ensures Encrypt(a, plaintext, hexKey, nonce).Some? <==>
              DecodeHex(hexKey).Some? && |DecodeHex(hexKey).value| in {16, 24, 32}
    ensures Encrypt(a, plaintext, hexKey, nonce).Some? ==>
              var sealed := a.seal(DecodeHex(hexKey).value, nonce, plaintext);
              && DecodeHex(Encrypt(a, plaintext, hexKey, nonce).value) == Some(nonce + sealed)
              && |Encrypt(a, plaintext, hexKey, nonce).value| == 2 * (12 + |sealed|)
  {
    if KeyOf(hexKey).Some? { HexRoundTrip(nonce + a.seal(KeyOf(hexKey).value, nonce, plaintext)); }
  }

  /** What opens: hexadecimal of at least a nonce, under a usable key, that the cipher opens. */
  lemma {:induction false} DecryptMeans(a: Aead, ciphertext: string, hexKey: string, plaintext: bytes)
    ensures Decrypt(a, ciphertext, hexKey) == Some(plaintext) <==>
              && DecodeHex(hexKey).Some? && |DecodeHex(hexKey).value| in {16, 24, 32}
              && DecodeHex(ciphertext).Some? && |DecodeHex(ciphertext).value| >= 12
              && a.open(DecodeHex(hexKey).value, DecodeHex(ciphertext).value[..12], DecodeHex(ciphertext).value[12..])
                 == Some(plaintext)
  {
  }
}
