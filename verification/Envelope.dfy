/**
  Encryption at rest. AES-256-GCM (NIST SP 800-38D sections 7.1 and 7.2), HMAC-SHA-256 (RFC 2104 section 2)
  and the key service are values of type `Crypto`; only the laws in `Lawful` are used.
 */
module Envelope {
  import opened Options
  import opened Bytes
  import opened Card
  import opened Identifiers

  const DEK_SIZE: nat := 32
  const IV_SIZE: nat := 12
  const TAG_SIZE: nat := 16

  /** A data key wrapped by the key service; it names the master key it was wrapped under. */
  datatype WrappedKey = WrappedKey(arn: string, blob: Bytes)

  /**
    `seal` and `open` take key, IV and text; `hmac` already holds its key; `wrap` takes the ARN of a master key, a data
    key and the randomness the key service adds.
   */
  datatype Crypto = Crypto(
    hmac: string -> string,
    seal: (Bytes, Bytes, Bytes) -> Bytes,
    open: (Bytes, Bytes, Bytes) -> Option<Bytes>,
    wrap: (string, Bytes, Bytes) -> WrappedKey,
    unwrap: WrappedKey -> Option<Bytes>)

  /**
    Opening undoes sealing, a sealed text is 16 bytes longer, unwrapping undoes wrapping under any master key, and no two
    texts in `used` have one HMAC.
   */
  ghost predicate Lawful(c: Crypto, used: set<string>) {
    && (forall dek: Bytes, iv: Bytes, text: Bytes {:trigger c.seal(dek, iv, text)} ::
          |dek| == DEK_SIZE && |iv| == IV_SIZE ==>
            && |c.seal(dek, iv, text)| == |text| + TAG_SIZE
            && c.open(dek, iv, c.seal(dek, iv, text)) == Some(text))
    && (forall arn: string, dek: Bytes, salt: Bytes {:trigger c.wrap(arn, dek, salt)} ::
          |dek| == DEK_SIZE ==> c.wrap(arn, dek, salt).arn == arn && c.unwrap(c.wrap(arn, dek, salt)) == Some(dek))
    && (forall x, y {:trigger c.hmac(x), c.hmac(y)} :: x in used && y in used && c.hmac(x) == c.hmac(y) ==> x == y)
  }

  /** The random material one record is sealed with. */
  datatype Sealing = Sealing(dek: Bytes, iv: Bytes, salt: Bytes)

  predicate ValidSealing(s: Sealing) {
    |s.dek| == DEK_SIZE && |s.iv| == IV_SIZE
  }

  /** The laws can be met for any set of hashed texts. */
  const Toy: Crypto := Crypto(
    x => x,
    (dek: Bytes, iv: Bytes, text: Bytes) => text + Zeros(TAG_SIZE),
    (dek: Bytes, iv: Bytes, sealed: Bytes) =>
      if |sealed| < TAG_SIZE then None else Some(sealed[..|sealed| - TAG_SIZE]),
    (arn: string, dek: Bytes, salt: Bytes) => WrappedKey(arn, dek),
    (key: WrappedKey) => Some(key.blob))

  lemma ToyIsLawful(used: set<string>)
    ensures Lawful(Toy, used)
  {
    forall dek: Bytes, iv: Bytes, text: Bytes
      ensures Toy.open(dek, iv, Toy.seal(dek, iv, text)) == Some(text)
    {
      assert (text + Zeros(TAG_SIZE))[..|text|] == text;
    }
  }

  function BlindIndex(c: Crypto, tenant: string, pan: string): string {
    c.hmac(BlindPreimage(tenant, pan))
  }

  /** Tenants and PANs that differ have different blind indexes. */
  lemma BlindIndexInjective(c: Crypto, used: set<string>, t: string, pan: string, t': string, pan': string)
    requires Lawful(c, used) && BlindPreimage(t, pan) in used && BlindPreimage(t', pan') in used
    requires ColonFree(t) && ColonFree(t')
    ensures BlindIndex(c, t, pan) == BlindIndex(c, t', pan') <==> t == t' && pan == pan'
  {
    BlindPreimageInjective(t, pan, t', pan');
  }

  // CVV records: DEK, IV and ciphertext in one buffer

  function Frame(dek: Bytes, iv: Bytes, ciphertext: Bytes): Bytes {
    dek + iv + ciphertext
  }

  function SealCVV(c: Crypto, cvv: string, s: Sealing): Bytes {
    Frame(s.dek, s.iv, c.seal(s.dek, s.iv, Encode(cvv)))
  }

  /** The CVV in a stored buffer; "" when the buffer is too short or does not open. */
  function OpenCVV(c: Crypto, combined: Bytes): string {
    if |combined| <= DEK_SIZE then ""
    else
      var dek, encrypted := combined[..DEK_SIZE], combined[DEK_SIZE..];
      if |encrypted| < IV_SIZE then ""
      else match c.open(dek, encrypted[..IV_SIZE], encrypted[IV_SIZE..])
           case None => ""
           case Some(plain) => Decode(plain)
  }

  /**
    A stored record is the 32 bytes of the key, the 12 of the IV, and the text sealed under them; parsing undoes building,
    and a valid CVV is never taken for the "missing" value "".
   */
  lemma CVVRoundTrip(c: Crypto, used: set<string>, cvv: string, s: Sealing)
    requires Lawful(c, used) && ValidSealing(s) && ValidCVV(cvv)
    ensures var record := SealCVV(c, cvv, s);
      && |record| == 32 + 12 + |cvv| + 16 && record[..32] == s.dek && record[32..44] == s.iv
      && c.open(s.dek, s.iv, record[44..]) == Some(Encode(cvv))
    ensures OpenCVV(c, SealCVV(c, cvv, s)) == cvv != ""
  {
    var sealed := c.seal(s.dek, s.iv, Encode(cvv));
    var combined := SealCVV(c, cvv, s);
    assert |combined| > DEK_SIZE + IV_SIZE;
    assert combined[..DEK_SIZE] == s.dek;
    assert combined[DEK_SIZE..][..IV_SIZE] == s.iv;
    assert combined[DEK_SIZE..][IV_SIZE..] == sealed == combined[44..];
    assert combined[32..44] == s.iv;
    DigitsAreNotTokenShaped(cvv);
    DecodeEncode(cvv);
  }

  /** Buffers with no room for a key and an IV read as missing. */
  lemma ShortBuffersReadAsMissing(c: Crypto, combined: Bytes)
    requires |combined| < DEK_SIZE + IV_SIZE
    ensures OpenCVV(c, combined) == ""
  {
  }

  /**
    Reads the CVV out of a buffer that the key slice shares storage with, then wipes the key slice. The result is
    what was stored although the buffer it came from no longer holds the key.
   */
  method OpenCVVInPlace(c: Crypto, combined: array<byte>) returns (cvv: string)
    modifies combined
    ensures cvv == OpenCVV(c, old(combined[..]))
    ensures combined.Length <= DEK_SIZE ==> combined[..] == old(combined[..])
    ensures combined.Length > DEK_SIZE ==>
      combined[..DEK_SIZE] == Zeros(DEK_SIZE) && combined[DEK_SIZE..] == old(combined[DEK_SIZE..])
  {
    ghost var stored := combined[..];
    if combined.Length <= DEK_SIZE {
      return "";
    }
    if combined.Length - DEK_SIZE < IV_SIZE {
      cvv := "";
    } else {
      var dek, iv := combined[..DEK_SIZE], combined[DEK_SIZE..DEK_SIZE + IV_SIZE];
      var ciphertext := combined[DEK_SIZE + IV_SIZE..];
      assert dek == stored[..DEK_SIZE] && iv == stored[DEK_SIZE..][..IV_SIZE];
      assert ciphertext == stored[DEK_SIZE..][IV_SIZE..];
      match c.open(dek, iv, ciphertext)
      case None => cvv := "";
      case Some(plain) => cvv := Decode(plain);
    }
    ClearSlice(combined, 0, DEK_SIZE);
  }

  // PAN records: the tag is kept apart from the ciphertext, the DEK is kept wrapped

  datatype SealedPAN = SealedPAN(ciphertext: Bytes, iv: Bytes, tag: Bytes, wrapped: WrappedKey)

  function SplitTag(sealed: Bytes): (r: (Bytes, Bytes))
    requires |sealed| >= TAG_SIZE
    ensures r.0 + r.1 == sealed && |r.1| == TAG_SIZE
  {
    (sealed[..|sealed| - TAG_SIZE], sealed[|sealed| - TAG_SIZE..])
  }

  /** A sealed text shorter than a tag is outside the laws; the handler would panic on it. */
  function SealPAN(c: Crypto, pan: string, arn: string, s: Sealing): SealedPAN {
    var sealed, wrapped := c.seal(s.dek, s.iv, Encode(pan)), c.wrap(arn, s.dek, s.salt);
    if |sealed| < TAG_SIZE then SealedPAN([], s.iv, sealed, wrapped)
    else var (ciphertext, tag) := SplitTag(sealed); SealedPAN(ciphertext, s.iv, tag, wrapped)
  }

  /** None when the key service or the decryption refuses. */
  function OpenPAN(c: Crypto, p: SealedPAN): Option<string> {
    match c.unwrap(p.wrapped)
    case None => None
    case Some(dek) =>
      match c.open(dek, p.iv, p.ciphertext + p.tag)
      case None => None
      case Some(plain) => Some(Decode(plain))
  }

  /**
    A sealed PAN is the PAN sealed under the data key and IV, cut before its last 16 bytes, and the data key wrapped under
    the master key asked for; unwrapping and rejoining the tag gives the PAN back.
   */
  lemma PANRoundTrip(c: Crypto, used: set<string>, pan: string, arn: string, s: Sealing)
    requires Lawful(c, used) && ValidSealing(s) && Latin(pan)
    ensures OpenPAN(c, SealPAN(c, pan, arn, s)) == Some(pan)
    ensures var sealed := SealPAN(c, pan, arn, s);
      && sealed.ciphertext + sealed.tag == c.seal(s.dek, s.iv, Encode(pan)) && sealed.iv == s.iv
      && |sealed.tag| == 16 && |sealed.ciphertext| == |pan|
      && sealed.wrapped == c.wrap(arn, s.dek, s.salt) && sealed.wrapped.arn == arn
  {
    DecodeEncode(pan);
  }
}
