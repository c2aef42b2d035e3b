/** The part of Go's crypto/x509 and math/big vocabulary that the certificate
    template builder uses: signature algorithms, the key-usage bit mask
    (section 4.2.1.3 of RFC 5280), extended key usages (section 4.2.1.12),
    the subject name, the certificate template itself, and the big-endian
    reading of a byte string as the serial number (section 4.1.2.2). */
module X509 {

  /** An octet. */
  type byte = b: int | 0 <= b < 256

  /** A 20-octet digest, the length of a SHA-1 hash (section 4.2.1.2 of RFC 5280, method 1). */
  type Digest = s: seq<byte> | |s| == 20 witness seq(20, _ => 0)

  // ---------------------------------------------------------------------------
  // Signature algorithms

  datatype PublicKeyAlgorithm = RSA | ECDSA

  datatype Hash = SHA1 | SHA256 | SHA384 | SHA512

  /** The members of x509.SignatureAlgorithm that the builder can produce. */
  datatype SignatureAlgorithm =
    | UnknownSignatureAlgorithm
    | SHA1WithRSA | SHA256WithRSA | SHA384WithRSA | SHA512WithRSA
    | ECDSAWithSHA1 | ECDSAWithSHA256 | ECDSAWithSHA384 | ECDSAWithSHA512

  /** The key family an algorithm signs with; None for the unknown algorithm. */
  function KeyAlgorithm(alg: SignatureAlgorithm): Option<PublicKeyAlgorithm>
  {
    match alg
    case UnknownSignatureAlgorithm => None
    case SHA1WithRSA | SHA256WithRSA | SHA384WithRSA | SHA512WithRSA => Some(RSA)
    case ECDSAWithSHA1 | ECDSAWithSHA256 | ECDSAWithSHA384 | ECDSAWithSHA512 => Some(ECDSA)
  }

  /** The digest an algorithm hashes with; None for the unknown algorithm. */
  function HashOf(alg: SignatureAlgorithm): Option<Hash>
  {
    match alg
    case UnknownSignatureAlgorithm => None
    case SHA1WithRSA | ECDSAWithSHA1 => Some(SHA1)
    case SHA256WithRSA | ECDSAWithSHA256 => Some(SHA256)
    case SHA384WithRSA | ECDSAWithSHA384 => Some(SHA384)
    case SHA512WithRSA | ECDSAWithSHA512 => Some(SHA512)
  }

  /** A known algorithm is determined by its key family and its hash. */
  lemma AlgorithmDeterminedByFamilyAndHash(a: SignatureAlgorithm, b: SignatureAlgorithm)
    requires KeyAlgorithm(a).Some? && HashOf(a).Some?
    requires KeyAlgorithm(a) == KeyAlgorithm(b) && HashOf(a) == HashOf(b)
    ensures a == b
  {
  }

  // ---------------------------------------------------------------------------
  // Key usage: x509.KeyUsage is a bit mask with one bit per usage, in the
  // order of the KeyUsage BIT STRING of section 4.2.1.3 of RFC 5280.

  datatype KeyUsageBit =
    | DigitalSignature | ContentCommitment | KeyEncipherment | DataEncipherment
    | KeyAgreement | CertSign | CRLSign | EncipherOnly | DecipherOnly

  type KeyUsage = bv16

  const KeyUsageDigitalSignature: KeyUsage := 0x001
  const KeyUsageContentCommitment: KeyUsage := 0x002
  const KeyUsageKeyEncipherment: KeyUsage := 0x004
  const KeyUsageDataEncipherment: KeyUsage := 0x008
  const KeyUsageKeyAgreement: KeyUsage := 0x010
  const KeyUsageCertSign: KeyUsage := 0x020
  const KeyUsageCRLSign: KeyUsage := 0x040
  const KeyUsageEncipherOnly: KeyUsage := 0x080
  const KeyUsageDecipherOnly: KeyUsage := 0x100

  /** The mask constant of one usage. */
  function Flag(b: KeyUsageBit): KeyUsage
  {
    match b
    case DigitalSignature => KeyUsageDigitalSignature
    case ContentCommitment => KeyUsageContentCommitment
    case KeyEncipherment => KeyUsageKeyEncipherment
    case DataEncipherment => KeyUsageDataEncipherment
    case KeyAgreement => KeyUsageKeyAgreement
    case CertSign => KeyUsageCertSign
    case CRLSign => KeyUsageCRLSign
    case EncipherOnly => KeyUsageEncipherOnly
    case DecipherOnly => KeyUsageDecipherOnly
  }

  /** The mask that holds exactly the usages of `s`. */
  function KeyUsageValue(s: set<KeyUsageBit>): KeyUsage
  {
    (if DigitalSignature in s then KeyUsageDigitalSignature else 0)
    | (if ContentCommitment in s then KeyUsageContentCommitment else 0)
    | (if KeyEncipherment in s then KeyUsageKeyEncipherment else 0)
    | (if DataEncipherment in s then KeyUsageDataEncipherment else 0)
    | (if KeyAgreement in s then KeyUsageKeyAgreement else 0)
    | (if CertSign in s then KeyUsageCertSign else 0)
    | (if CRLSign in s then KeyUsageCRLSign else 0)
    | (if EncipherOnly in s then KeyUsageEncipherOnly else 0)
    | (if DecipherOnly in s then KeyUsageDecipherOnly else 0)
  }

  /** A usage's bit is set in the mask exactly when the usage is in the set. */
  lemma KeyUsageValueHasFlag(s: set<KeyUsageBit>, b: KeyUsageBit)
    ensures KeyUsageValue(s) & Flag(b) != 0 <==> b in s
  {
  }

  /** Distinct usage sets give distinct masks, so the mask loses nothing. */
  lemma KeyUsageValueInjective(s: set<KeyUsageBit>, t: set<KeyUsageBit>)
    requires KeyUsageValue(s) == KeyUsageValue(t)
    ensures s == t
  {
    forall b: KeyUsageBit ensures b in s <==> b in t {
      SameMaskSameUsage(s, t, b);
    }
  }

  lemma SameMaskSameUsage(s: set<KeyUsageBit>, t: set<KeyUsageBit>, b: KeyUsageBit)
    requires KeyUsageValue(s) & Flag(b) == KeyUsageValue(t) & Flag(b)
    ensures b in s <==> b in t
  {
    KeyUsageValueHasFlag(s, b);
    KeyUsageValueHasFlag(t, b);
  }

  /** OR-ing a usage's constant into the mask adds that usage to the set. */
  lemma KeyUsageValueAdd(s: set<KeyUsageBit>, b: KeyUsageBit)
    ensures KeyUsageValue(s + {b}) == KeyUsageValue(s) | Flag(b)
  {
    match b
    case DigitalSignature =>
    case ContentCommitment =>
    case KeyEncipherment =>
    case DataEncipherment =>
    case KeyAgreement =>
    case CertSign =>
    case CRLSign =>
    case EncipherOnly =>
    case DecipherOnly =>
  }

  // ---------------------------------------------------------------------------
  // Extended key usage (section 4.2.1.12 of RFC 5280)

  datatype ExtKeyUsage = ServerAuth | ClientAuth

  // ---------------------------------------------------------------------------
  // The certificate template

  /** pkix.Name, restricted to the attributes the builder fills in. An empty
      commonName is the Go zero value: the attribute is absent. */
  datatype Name = Name(
    country: seq<string>,
    organization: seq<string>,
    organizationalUnit: seq<string>,
    commonName: string)

  /** The fields of x509.Certificate that the builder sets. A nil slice is
      the empty sequence. Times are opaque instants. */
  datatype Certificate = Certificate(
    serialNumber: nat,
    subject: Name,
    notBefore: int,
    notAfter: int,
    subjectKeyId: Digest,
    basicConstraintsValid: bool,
    signatureAlgorithm: SignatureAlgorithm,
    isCA: bool,
    extKeyUsage: seq<ExtKeyUsage>,
    keyUsage: KeyUsage,
    dnsNames: seq<string>)

  datatype Option<T> = None | Some(value: T)

  // ---------------------------------------------------------------------------
  // big.Int.SetBytes: the unsigned big-endian value of a byte string

  function Pow256(n: nat): (r: nat)
    ensures r > 0
  {
    if n == 0 then 1 else 256 * Pow256(n - 1)
  }

  /** The unsigned big-endian value of a byte string: no bytes are 0, and
      n bytes stay below 256^n. */
  function SetBytes(b: seq<byte>): (r: nat)
    ensures b == [] ==> r == 0
    ensures r < Pow256(|b|)
  {
    if b == [] then 0
    else
      var init := b[..|b| - 1];
      AppendDigitBound(SetBytes(init), b[|b| - 1], Pow256(|init|));
      SetBytes(init) * 256 + b[|b| - 1]
  }

  /** Appending a base-256 digit to a value below p gives a value below 256 * p. */
  lemma AppendDigitBound(v: nat, d: byte, p: nat)
    requires v < p
    ensures v * 256 + d < 256 * p
  {
  }

  /** A leading zero byte does not change the value. */
  lemma {:induction false} SetBytesLeadingZero(b: seq<byte>)
    ensures SetBytes([0] + b) == SetBytes(b)
  {
    if b != [] {
      var init := b[..|b| - 1];
      assert ([0] + b)[..|b|] == [0] + init;
      SetBytesLeadingZero(init);
    } else {
      assert [0] + b == [0];
      assert [0][..0] == [];
    }
  }

  /** Byte strings of the same length with the same value are equal. */
  lemma {:induction false} SetBytesInjective(a: seq<byte>, b: seq<byte>)
    requires |a| == |b|
    requires SetBytes(a) == SetBytes(b)
    ensures a == b
  {
    if a != [] {
      var n := |a| - 1;
      var ia, ib := a[..n], b[..n];
      // value = prefix * 256 + last with last < 256 fixes both parts
      assert SetBytes(a) % 256 == a[n] && SetBytes(a) / 256 == SetBytes(ia);
      assert SetBytes(b) % 256 == b[n] && SetBytes(b) / 256 == SetBytes(ib);
      SetBytesInjective(ia, ib);
      assert a == ia + [a[n]] && b == ib + [b[n]];
    }
  }

  /** Without a leading zero byte, n bytes have a value of at least 256^(n-1). */
  lemma {:induction false} SetBytesLowerBound(b: seq<byte>)
    requires b != [] && b[0] != 0
    ensures SetBytes(b) >= Pow256(|b| - 1)
  {
    if |b| > 1 {
      var init := b[..|b| - 1];
      SetBytesLowerBound(init);
      assert SetBytes(b) >= SetBytes(init) * 256;
    }
  }

  /** Byte strings without a leading zero byte and of different lengths have
      different values. */
  lemma SetBytesDistinctLengths(a: seq<byte>, b: seq<byte>)
    requires a != [] && a[0] != 0 && b != [] && b[0] != 0
    requires |a| < |b|
    ensures SetBytes(a) < SetBytes(b)
  {
    SetBytesLowerBound(b);
    Pow256Monotone(|a|, |b| - 1);
  }

  lemma {:induction false} Pow256Monotone(m: nat, n: nat)
    requires m <= n
    ensures Pow256(m) <= Pow256(n)
  {
    if m < n {
      Pow256Monotone(m, n - 1);
    }
  }
}
