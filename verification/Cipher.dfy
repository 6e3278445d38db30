/** The token ciphers: pass-through, or a sealed box framed as base64url(nonce + sealed text). */
module Cipher {
  import opened GoText
  import Base64Url

  /** A nonce has at least one byte. */
  type NonceSize = n: nat | n > 0 witness 12

  datatype Cipherer =
    | Noop
    | Aead(nonceSize: NonceSize, seal: (Text, Text) -> Text, open: (Text, Text) -> Option<Text>)
  {
    /** Opening undoes sealing under the same nonce. */
    ghost predicate Opens() {
      Aead? ==> forall nonce, plain :: open(nonce, seal(nonce, plain)) == Some(plain)
    }

    /** The random bytes read for the nonce, or none when reading them fails. */
    predicate Entropy(random: Option<Text>) {
      Aead? && random.Some? ==> |random.value| == nonceSize
    }

    function Encrypt(plain: Text, random: Option<Text>): Option<Text> {
      match this
      case Noop => Some(plain)
      case Aead(_, seal, _) =>
        if random.None? then None
        else Some(Base64Url.Encode(random.value + seal(random.value, plain)))
    }

    function Decrypt(token: Text): Option<Text> {
      match this
      case Noop => Some(token)
      case Aead(nonceSize, _, open) =>
        match Base64Url.Decode(token)
        case None => None
        case Some(raw) => if |raw| < nonceSize then None else open(raw[..nonceSize], raw[nonceSize..])
    }

    /** Whatever is encrypted decrypts to itself. */
    lemma DecryptEncrypt(plain: Text, random: Option<Text>)
      requires Opens() && Entropy(random) && Encrypt(plain, random).Some?
      ensures Decrypt(Encrypt(plain, random).value) == Some(plain)
    {
      if Aead? {
        var raw := random.value + seal(random.value, plain);
        Base64Url.RoundTrip(raw);
        assert raw[..nonceSize] == random.value && raw[nonceSize..] == seal(random.value, plain);
      }
    }

    /** A sealed value is framed as its nonce, then the sealed text. */
    lemma Framing(plain: Text, random: Option<Text>)
      requires Aead? && Encrypt(plain, random).Some?
      ensures random.Some? && Base64Url.Decode(Encrypt(plain, random).value) == Some(random.value + seal(random.value, plain))
    {
      Base64Url.RoundTrip(random.value + seal(random.value, plain));
    }
  }

  const UUID_ZEROS: Text := "00000000-" + "0000-0000-0000" + "-000000000000"
  const SECRET_ZEROS: Text := "000000000000" + "000000000000"

  /** The constant every cache lookup decrypts first. */
  const DUMMY_CIPHERTEXT: Text := UUID_ZEROS + "." + SECRET_ZEROS

  /** Only the pass-through cipher decrypts the dummy: its dot is no base64url digit. */
  lemma DummyDecrypts(c: Cipherer)
    ensures c.Decrypt(DUMMY_CIPHERTEXT).Some? <==> c.Noop?
  {
    assert |UUID_ZEROS| == 36;
    assert DUMMY_CIPHERTEXT[36] == '.';
    Base64Url.ForeignByteFails(DUMMY_CIPHERTEXT, 36);
  }
}
