/** PIN pairing of pkg/identity/pairing.go. */
module Pairing {
  import opened Common
  import opened BigEndian

  const SALT_SIZE: nat := 16
  const PAIRING_NONCE_SIZE: nat := 12
  const PUBLIC_KEY_SIZE: nat := 32
  const MIN_PIN: nat := 4

  /** HKDF for the pairing key and for the code digest, and the AEAD, as functions on bytes. */
  datatype PairingSuite = PairingSuite(
    pinKey: (Bytes, Bytes) -> Bytes,                      // PIN, salt
    seal: (Bytes, Bytes, Bytes, Bytes) -> Bytes,          // key, nonce, plaintext, AAD
    open: (Bytes, Bytes, Bytes, Bytes) -> Option<Bytes>,  // key, nonce, ciphertext, AAD
    digest: (Bytes, Bytes) -> Bytes)                      // keying material, salt
  {
    ghost predicate OpensWhatItSeals()
    {
      forall k, n, p, a :: open(k, n, seal(k, n, p, a), a) == Some(p)
    }

    /** No ciphertext opens under a second key (section 2.8 of RFC 8439, idealised). */
    ghost predicate OpensOnlyWhatItSeals()
    {
      forall k, k', n, p, a :: k != k' ==> open(k', n, seal(k, n, p, a), a) == None
    }
  }

  datatype PairingPayload = PairingPayload(salt: Bytes, nonce: Bytes, ciphertext: Bytes)

  datatype PeerIdentity = PeerIdentity(publicKey: Bytes, alias: Bytes)

  datatype PairingError = PinTooShort | DataTooShort | AuthenticationFailed | InvalidLength

  // ---------------------------------------------------------------- the verification code

  /** bytes.Compare(a, b) < 0. */
  predicate Less(a: Bytes, b: Bytes)
  {
    if a == [] then b != []
    else if b == [] then false
    else if a[0] != b[0] then a[0] < b[0]
    else Less(a[1..], b[1..])
  }

  /** The last `w` decimal digits of `v`, zero-padded. */
  function Decimal(v: nat, w: nat): (r: string)
    ensures |r| == w
    ensures forall i :: 0 <= i < w ==> '0' <= r[i] <= '9'
  {
    if w == 0 then "" else Decimal(v / 10, w - 1) + [('0' as int + v % 10) as char]
  }

  /** The number that a string of digits stands for. */
  function Value(s: string): int
  {
    if s == "" then 0 else Value(s[..|s| - 1]) * 10 + (s[|s| - 1] as int - '0' as int)
  }

  function CodeNumber(digest: Bytes): nat
  {
    Get(digest) % 1_000_000
  }

  /** `%06d`, split in the middle. */
  function Code(digest: Bytes): string
  {
    var s := Decimal(CodeNumber(digest), 6);
    s[..3] + "-" + s[3..]
  }

  /** What the code is computed from. */
  function KeyingMaterial(key: Bytes, localPub: Bytes, peerPub: Bytes): Bytes
  {
    if Less(localPub, peerPub) then key + localPub + peerPub else key + peerPub + localPub
  }

  /** generateSAS. */
  function Sas(suite: PairingSuite, key: Bytes, localPub: Bytes, peerPub: Bytes, salt: Bytes): string
  {
    Code(suite.digest(KeyingMaterial(key, localPub, peerPub), salt))
  }

  // ---------------------------------------------------------------- payloads

  /** CreatePairingPayload with the salt and nonce the random generator delivers. */
  function Create(suite: PairingSuite, publicKey: Bytes, alias: Bytes, pin: Bytes, salt: Bytes, nonce: Bytes)
    : Result<PairingPayload, PairingError>
  {
    if |pin| < MIN_PIN then Err(PinTooShort)
    else Ok(PairingPayload(salt, nonce, suite.seal(suite.pinKey(pin, salt), nonce, publicKey + alias, salt)))
  }

  /** OpenPairingPayload: the creator's identity and the code to compare. */
  function Open(suite: PairingSuite, p: PairingPayload, localPub: Bytes, pin: Bytes)
    : Result<(PeerIdentity, string), PairingError>
  {
    var key := suite.pinKey(pin, p.salt);
    match suite.open(key, p.nonce, p.ciphertext, p.salt)
    case None => Err(AuthenticationFailed)
    case Some(plaintext) =>
      if |plaintext| < PUBLIC_KEY_SIZE then Err(InvalidLength)
      else
        var peerPub := plaintext[..32];
        Ok((PeerIdentity(peerPub, plaintext[32..]), Sas(suite, key, localPub, peerPub, p.salt)))
  }

  /** GenerateSAS, on the creator's side. */
  function CreatorSas(suite: PairingSuite, p: PairingPayload, localPub: Bytes, peerPub: Bytes, pin: Bytes): string
  {
    Sas(suite, suite.pinKey(pin, p.salt), localPub, peerPub, p.salt)
  }

  function Pack(p: PairingPayload): Bytes
  {
    p.salt + p.nonce + p.ciphertext
  }

  function Unpack(data: Bytes): Result<PairingPayload, PairingError>
  {
    if |data| < SALT_SIZE + PAIRING_NONCE_SIZE then Err(DataTooShort)
    else Ok(PairingPayload(data[0..16], data[16..28], data[28..]))
  }

  method Marshal(p: PairingPayload) returns (r: Bytes)
    ensures r == Pack(p)
  {
    r := [];
    r := r + p.salt;
    r := r + p.nonce;
    r := r + p.ciphertext;
  }

  /** The buffers Go copies into have their final size from the start. */
  method UnmarshalPairingPayload(data: Bytes) returns (r: Result<PairingPayload, PairingError>)
    ensures r == Unpack(data)
  {
    if |data| < 28 {
      return Err(DataTooShort);
    }
    var p := PairingPayload(Zeros(16), Zeros(12), []);
    p := p.(salt := data[0..16]);
    p := p.(nonce := data[16..28]);
    p := p.(ciphertext := data[28..]);
    return Ok(p);
  }

  // ---------------------------------------------------------------- properties

  /** The order on keys decides every pair of different keys one way. */
  lemma {:induction false} LessIsTotal(a: Bytes, b: Bytes)
    requires a != b
    ensures Less(a, b) <==> !Less(b, a)
  {
    if a != [] && b != [] && a[0] == b[0] {
      assert a == [a[0]] + a[1..] && b == [b[0]] + b[1..];
      LessIsTotal(a[1..], b[1..]);
    }
  }

  /** Both devices compute one code, whichever key sorts first. */
  lemma SasSymmetric(suite: PairingSuite, key: Bytes, a: Bytes, b: Bytes, salt: Bytes)
    ensures Sas(suite, key, a, b, salt) == Sas(suite, key, b, a, salt)
  {
    if a != b {
      LessIsTotal(a, b);
    }
  }

  /** The order is decided at the first byte that differs, or by length. */
  lemma {:induction false} LessAtFirstDifference(a: Bytes, b: Bytes, n: nat)
    requires n <= |a| && n < |b| && a[..n] == b[..n] && (n == |a| || a[n] < b[n])
    ensures Less(a, b)
  {
    if n > 0 {
      assert a[0] == a[..n][0] == b[..n][0] == b[0];
      assert a[1..][..n - 1] == a[..n][1..] == b[..n][1..] == b[1..][..n - 1];
      LessAtFirstDifference(a[1..], b[1..], n - 1);
    }
  }

  /** The code is that of the pairing key followed by the smaller and the larger public key. */
  lemma SasOfSortedKeys(suite: PairingSuite, key: Bytes, a: Bytes, b: Bytes, salt: Bytes)
    requires Less(a, b)
    ensures Sas(suite, key, a, b, salt) == Sas(suite, key, b, a, salt) == Code(suite.digest(key + a + b, salt))
  {
    NotLessThanItself(a);
    LessIsTotal(a, b);
  }

  lemma {:induction false} NotLessThanItself(a: Bytes)
    ensures !Less(a, a)
  {
    if a != [] {
      NotLessThanItself(a[1..]);
    }
  }

  /** Under one pairing key, two calls feed the digest the same bytes exactly when they name the same two keys. */
  lemma SasBindsKeys(key: Bytes, a: Bytes, b: Bytes, c: Bytes, d: Bytes)
    requires |a| == |b| == |c| == |d| == PUBLIC_KEY_SIZE
    ensures KeyingMaterial(key, a, b) == KeyingMaterial(key, c, d) <==> {a, b} == {c, d}
  {
    var p, q := if Less(a, b) then (a, b) else (b, a), if Less(c, d) then (c, d) else (d, c);
    assert KeyingMaterial(key, a, b) == key + p.0 + p.1 && KeyingMaterial(key, c, d) == key + q.0 + q.1;
    if key + p.0 + p.1 == key + q.0 + q.1 {
      TailsEqual(key, p.0, p.1, q.0, q.1);
      assert {a, b} == {p.0, p.1} && {c, d} == {q.0, q.1};
    }
    if {a, b} == {c, d} {
      SamePair(a, b, c, d);
      SameMaterial(key, a, b);
    }
  }

  lemma TailsEqual(key: Bytes, a: Bytes, b: Bytes, c: Bytes, d: Bytes)
    requires |a| == |c| && key + a + b == key + c + d
    ensures a == c && b == d
  {
    var n := |key|;
    assert (key + a + b)[n..n + |a|] == a && (key + c + d)[n..n + |c|] == c;
    assert (key + a + b)[n + |a|..] == b && (key + c + d)[n + |c|..] == d;
  }

  lemma SamePair(a: Bytes, b: Bytes, c: Bytes, d: Bytes)
    requires {a, b} == {c, d}
    ensures (a == c && b == d) || (a == d && b == c)
  {
    assert a in {c, d} && b in {c, d} && c in {a, b} && d in {a, b};
  }

  lemma SameMaterial(key: Bytes, a: Bytes, b: Bytes)
    ensures KeyingMaterial(key, a, b) == KeyingMaterial(key, b, a)
  {
    if a != b {
      LessIsTotal(a, b);
    }
  }

  lemma {:induction false} DecimalValue(v: nat, w: nat, limit: nat)
    requires limit == Power10(w) && v < limit
    ensures Value(Decimal(v, w)) == v
  {
    if w > 0 {
      DecimalValue(v / 10, w - 1, limit / 10);
      assert Decimal(v, w)[..w - 1] == Decimal(v / 10, w - 1);
    }
  }

  function Power10(w: nat): nat
  {
    if w == 0 then 1 else 10 * Power10(w - 1)
  }

  /** A code reads `ddd-ddd`, and its digits spell the four digest bytes, big-endian, modulo a million. */
  lemma CodeShape(digest: Bytes)
    requires |digest| == 4
    ensures
      var s := Code(digest);
      && |s| == 7 && s[3] == '-'
      && (forall i :: 0 <= i < 7 && i != 3 ==> '0' <= s[i] <= '9')
      && Value(s[..3] + s[4..]) ==
           (digest[0] as nat * 0x100_0000 + digest[1] as nat * 0x1_0000 + digest[2] as nat * 0x100 + digest[3] as nat)
           % 1_000_000
  {
    BytesOfFour(0, digest);
    assert Power10(3) == 1000;
    assert Power10(6) == 1_000_000;
    DecimalValue(CodeNumber(digest), 6, 1_000_000);
    var d, s := Decimal(CodeNumber(digest), 6), Code(digest);
    assert s == d[..3] + "-" + d[3..];
    assert s[3] == '-' && s[..3] == d[..3] && s[4..] == d[3..];
    assert s[..3] + s[4..] == d;
    forall i | 0 <= i < 7 && i != 3 ensures '0' <= s[i] <= '9' {
      assert s[i] == d[if i < 3 then i else i - 1];
    }
  }

  lemma UnpackUndoesPack(p: PairingPayload)
    requires |p.salt| == SALT_SIZE && |p.nonce| == PAIRING_NONCE_SIZE
    ensures Unpack(Pack(p)) == Ok(p)
  {
    var data := Pack(p);
    assert data[0..16] == p.salt && data[16..28] == p.nonce && data[28..] == p.ciphertext;
  }

  /** Exactly the buffers of 28 bytes and more are taken, and packing gives them back. */
  lemma PackUndoesUnpack(data: Bytes)
    ensures if |data| < 28 then Unpack(data) == Err(DataTooShort)
            else Unpack(data).Ok? && Pack(Unpack(data).value) == data
  {
    if |data| >= 28 {
      assert data[0..16] + data[16..28] + data[28..] == data;
    }
  }

  /**
   * Pairing end to end: what one device creates, packs and sends, the other unpacks and opens with
   * the same PIN to the same key and alias, and both show the same code.
   */
  lemma PairingEndToEnd(suite: PairingSuite, creatorPub: Bytes, alias: Bytes, openerPub: Bytes, pin: Bytes,
                        salt: Bytes, nonce: Bytes)
    requires suite.OpensWhatItSeals()
    requires |creatorPub| == PUBLIC_KEY_SIZE && |pin| >= MIN_PIN && |salt| == SALT_SIZE && |nonce| == PAIRING_NONCE_SIZE
    ensures
      var created := Create(suite, creatorPub, alias, pin, salt, nonce);
      && created.Ok?
      && Unpack(Pack(created.value)) == created
      && Open(suite, created.value, openerPub, pin) ==
           Ok((PeerIdentity(creatorPub, alias), CreatorSas(suite, created.value, creatorPub, openerPub, pin)))
  {
    var p := Create(suite, creatorPub, alias, pin, salt, nonce).value;
    UnpackUndoesPack(p);
    var plaintext := creatorPub + alias;
    assert plaintext[..32] == creatorPub && plaintext[32..] == alias;
    SasSymmetric(suite, suite.pinKey(pin, salt), openerPub, creatorPub, salt);
  }

  /** A PIN of fewer than 4 bytes is refused; any other seals key and alias, bound to the salt. */
  lemma CreateExactly(suite: PairingSuite, publicKey: Bytes, alias: Bytes, pin: Bytes, salt: Bytes, nonce: Bytes)
    ensures
      var r := Create(suite, publicKey, alias, pin, salt, nonce);
      && (r == Err(PinTooShort) <==> |pin| < 4)
      && (|pin| >= 4 ==>
            && r.Ok? && r.value.salt == salt && r.value.nonce == nonce
            && r.value.ciphertext == suite.seal(suite.pinKey(pin, salt), nonce, publicKey + alias, salt))
  {}

  /** What any other implementation seals in the same way opens: short contents are refused. */
  lemma OpensWhatIsSealed(suite: PairingSuite, plaintext: Bytes, openerPub: Bytes, pin: Bytes, salt: Bytes,
                          nonce: Bytes)
    requires suite.OpensWhatItSeals()
    ensures
      var key := suite.pinKey(pin, salt);
      var r := Open(suite, PairingPayload(salt, nonce, suite.seal(key, nonce, plaintext, salt)), openerPub, pin);
      if |plaintext| < 32 then r == Err(InvalidLength)
      else
        && r.Ok? && r.value.0.publicKey + r.value.0.alias == plaintext && |r.value.0.publicKey| == 32
        && r.value.1 == Sas(suite, key, openerPub, r.value.0.publicKey, salt)
  {
    if |plaintext| >= 32 {
      assert plaintext[..32] + plaintext[32..] == plaintext;
    }
  }

  /** What does not authenticate is refused. */
  lemma OpenRefuses(suite: PairingSuite, p: PairingPayload, openerPub: Bytes, pin: Bytes)
    ensures Open(suite, p, openerPub, pin) == Err(AuthenticationFailed)
            <==> suite.open(suite.pinKey(pin, p.salt), p.nonce, p.ciphertext, p.salt) == None
  {}

  /** A payload opens under exactly the PINs that derive the creator's pairing key. */
  lemma OpensExactlyUnderThePin(suite: PairingSuite, creatorPub: Bytes, alias: Bytes, openerPub: Bytes, pin: Bytes,
                                salt: Bytes, nonce: Bytes, guess: Bytes)
    requires suite.OpensWhatItSeals() && suite.OpensOnlyWhatItSeals()
    requires |creatorPub| == PUBLIC_KEY_SIZE && |pin| >= MIN_PIN && |salt| == SALT_SIZE && |nonce| == PAIRING_NONCE_SIZE
    ensures
      var created := Create(suite, creatorPub, alias, pin, salt, nonce);
      && created.Ok?
      && (Open(suite, created.value, openerPub, guess).Ok? <==> suite.pinKey(guess, salt) == suite.pinKey(pin, salt))
  {
    var p := Create(suite, creatorPub, alias, pin, salt, nonce).value;
    assert |creatorPub + alias| >= PUBLIC_KEY_SIZE;
    if suite.pinKey(guess, salt) == suite.pinKey(pin, salt) {
      assert suite.open(suite.pinKey(guess, salt), nonce, p.ciphertext, salt) == Some(creatorPub + alias);
    }
  }
}
