# certificateBar: certificate-template policy in Dafny

This project models the policy layer of package `certificate` (file
`certificate/certhandler.go`). That layer turns a flat certificate description
into an x509 certificate template. The model covers:

- the usage resolver `getUsage` and its defaults `getDefaultKeyUsage` and
  `getDefaultExtKeyUsage`. Usage tokens become a key-usage bit mask
  (section 4.2.1.3 of RFC 5280) and a list of extended key usages
  (section 4.2.1.12 of RFC 5280);
- the signature-algorithm selector `signatureAlgorithm`, with
  `findRsaSignALg` and `findEcdsaSignALg`;
- the membership scan `isStringInList`;
- the subject key identifier `keyIdentifier` (section 4.2.1.2 of RFC 5280,
  method 1);
- the template builder `CreateCertificateTemplate`.

Layout:

- `x509.dfy`, module `X509`, holds the vocabulary of Go's `crypto/x509` and
  `math/big` that the builder uses: signature algorithms with their key family
  and hash, the `KeyUsage` bit mask with a set view `KeyUsageValue`,
  extended key usages, the subject `Name`, the template `Certificate`, and
  `SetBytes`, the big-endian value of a byte string that becomes the serial
  number (section 4.1.2.2 of RFC 5280).
- `certhandler.dfy`, module `CertHandler`, holds the repository's own logic.
  The switches of the selector and of the defaults are functions. `getUsage`, `isStringInList` and
  `CreateCertificateTemplate` are methods, because the source builds their
  results step by step. The body of `getUsage`'s loop, the token switch, is
  the method `ApplyToken`. The loop calls it once per token.

Each method is proved against specification functions:

- `ResolveUsage` specifies `GetUsage`. The recursive functions
  `RequestedKeyUsage` and `RequestedExtKeyUsage` read the token list left to
  right, as the loop does.
- `SubjectAltNames` specifies the DNS-name rule.
- `SignatureAlgorithm` is a function, and the builder's contract refers to it.

The lemmas state what the source promises about those functions.

Collaborators the model cannot see are parameters. `key.PublicKey`,
`key.PublicKeyBitArray` and SHA-1 are the function-valued fields of
`KeyService`. The result of `PublicKeyBitArray` has its error discarded, as in
the source. `log.Fatal` in `signatureAlgorithm` ends the process. The model
gives it the error result `Failure(NoSignatureAlgorithm)`, and the builder
returns that error. Go strings are byte strings, so the `Id` is a
`seq<byte>`. Times are opaque integers.

Two behaviours of the code differ from what its comment and a first reading
suggest. The model follows the code in both:

- The comment at `certificate/certhandler.go:53` says the common name is
  repeated "as the first SAN". The code appends it last
  (`certificate/certhandler.go:84`). `CommonNameRepeatedLast` shows
  `["b.com"]` with common name `a.com` giving `["b.com", "a.com"]`.
- The common name is appended even when it is empty, provided `""` is not
  already an alternative name (`certificate/certhandler.go:83-84`).

`Subject.CommonName` is set only when the input is non-empty
(`certificate/certhandler.go:75-77`). The Go field's zero value is `""`, so
the template's subject common name always equals the input's. An empty value
means the attribute is absent.

## Model

| member | source | states |
|---|---|---|
| `X509.KeyUsageValueHasFlag` | certificate/certhandler.go:207-216 | a usage's constant bit is set in the mask exactly when the usage is in the set the mask encodes |
| `X509.KeyUsageValueInjective` | certificate/certhandler.go:207-216 | two usage sets with the same mask are equal, so the bit mask loses no usage |
| `X509.KeyUsageValueAdd` | certificate/certhandler.go:207-216 | OR-ing a usage's constant into the mask adds exactly that usage to the set |
| `X509.AlgorithmDeterminedByFamilyAndHash` | certificate/certhandler.go:109-137 | each algorithm the selectors can return is the only one with its key family and hash |
| `X509.SetBytes` | certificate/certhandler.go:59 | the serial number is the unsigned big-endian value of the id bytes: 0 for no bytes, and below 256^n for n bytes |
| `X509.SetBytesLeadingZero` | certificate/certhandler.go:59 | a leading zero byte in the id does not change the serial number, so ids that differ only in leading zero bytes collide |
| `X509.SetBytesInjective` | certificate/certhandler.go:59 | two ids of the same length give the same serial number only if they are equal |
| `X509.SetBytesLowerBound` | certificate/certhandler.go:59 | an id of n bytes whose first byte is not zero gives a serial number of at least 256^(n-1) |
| `X509.SetBytesDistinctLengths` | certificate/certhandler.go:59 | ids without a leading zero byte and of different lengths give different serial numbers (for example "A" and "AA") |
| `CertHandler.TokenKindsDisjoint` | certificate/certhandler.go:206-221 | no token names both a key usage and an extended key usage |
| `CertHandler.RequestedKeyUsageMembers` | certificate/certhandler.go:205-216 | a usage is requested by a token list exactly when some token of the list names it |
| `CertHandler.RequestedKeyUsageIgnoresOrder` | certificate/certhandler.go:205-216 | two token lists with the same tokens request the same key usages, whatever the order and the repetitions |
| `CertHandler.RequestedExtKeyUsageAppend` | certificate/certhandler.go:204-221 | the extended usages of a concatenation are those of the first list followed by those of the second: input order is kept, duplicates stay |
| `CertHandler.RequestedExtKeyUsageSingle` | certificate/certhandler.go:217-220 | one token adds its extended usage ("clientauth" gives ClientAuth, "serverauth" gives ServerAuth) or nothing |
| `CertHandler.RequestedExtKeyUsageMembers` | certificate/certhandler.go:217-220 | an extended usage is listed exactly when some token names it |
| `CertHandler.DefaultKeyUsage` | certificate/certhandler.go:226-231 | the default mask is exactly {CertSign, CRLSign} for a CA and exactly {KeyEncipherment, DigitalSignature} otherwise |
| `CertHandler.DefaultExtKeyUsage` | certificate/certhandler.go:233-238 | the default extended usage is empty for a CA and otherwise what "clientauth" then "serverauth" request, that is [ClientAuth, ServerAuth] in that order |
| `CertHandler.ResolveUsage` | certificate/certhandler.go:199-224 | the defaults for an empty list, otherwise the mask of the requested usage set and the requested extended usages in input order (its properties are the lemmas below) |
| `CertHandler.ResolvedKeyUsageBits` | certificate/certhandler.go:199-223 | for a non-empty token list, a usage's bit is set in the resolved mask exactly when some token names that usage |
| `CertHandler.UnknownTokensResolveToNothing` | certificate/certhandler.go:199-223 | a non-empty list of unrecognised tokens yields an empty mask and no extended usage, not the defaults |
| `CertHandler.CaTokens` | certificate/certhandler.go:207-210 | "crlsign", "certsign" request exactly {CertSign, CRLSign} and no extended usage |
| `CertHandler.EndEntityTokens` | certificate/certhandler.go:211-220 | "encipherment", "signature", "clientauth", "serverauth" request exactly {KeyEncipherment, DigitalSignature} and [ClientAuth, ServerAuth] |
| `CertHandler.DefaultsAreExplicitTokens` | certificate/certhandler.go:199-238 | the defaults for an empty list equal what the corresponding explicit token list resolves to, for a CA and for any other certificate |
| `CertHandler.RequestedUsageStep` | certificate/certhandler.go:205-222 | reading one more token adds exactly the usage or extended usage it names |
| `CertHandler.ApplyToken` | certificate/certhandler.go:206-221 | one round of the switch ORs a recognised usage's flag into the mask, appends a recognised extended usage, and leaves both unchanged for any other token |
| `CertHandler.GetUsage` | certificate/certhandler.go:199-224 | the loop returns the defaults for an empty list, else the mask of the requested usages and the requested extended usages in input order |
| `CertHandler.FindEcdsaSignAlg` | certificate/certhandler.go:109-122 | the result is an ECDSA algorithm whose hash is the requested one, and ECDSAWithSHA256 for any token other than SHA1/SHA256/SHA384/SHA512, including "" |
| `CertHandler.FindRsaSignAlg` | certificate/certhandler.go:124-137 | the result is an RSA algorithm whose hash is the requested one, and SHA256WithRSA for any token other than SHA1/SHA256/SHA384/SHA512, including "" |
| `CertHandler.SignatureAlgorithm` | certificate/certhandler.go:97-107 | fails exactly for a key that is neither RSA nor ECDSA; otherwise the algorithm has the requested hash and is RSA exactly for an RSA key and ECDSA exactly for an ECDSA key |
| `CertHandler.SignatureAlgorithmUnique` | certificate/certhandler.go:97-137 | the selected algorithm is the only one of the key's family with the requested hash |
| `CertHandler.IsStringInList` | certificate/certhandler.go:139-146 | returns true exactly when the value occurs in the list |
| `CertHandler.KeyIdentifier` | certificate/certhandler.go:90-95 | the given `sha1` applied to the given serialisation of the public key; the serialisation's error is discarded |
| `CertHandler.KeyIdentifierDeterministic` | certificate/certhandler.go:90-95 | two public keys with the same serialised bits get the same key identifier, so one key always gets one identifier |
| `CertHandler.SubjectAltNames` | certificate/certhandler.go:81-86 | no alternative names gives no DNS names; otherwise the DNS names start with the alternative names unchanged and contain the common name, and have one extra element exactly when the common name is not an alternative name |
| `CertHandler.CommonNameRepeatedLast` | certificate/certhandler.go:50-53 | the repeated common name comes after the alternative names, not first; an empty common name is repeated too; without alternative names there are none |
| `CertHandler.CreateCertificateTemplate` | certificate/certhandler.go:54-88 | fails exactly for a key of an unsupported type. Otherwise the serial number is the big-endian value of the id bytes. The subject has one-element country, organization and unit lists and the input's common name. The validity, CA flag, resolved usages, selected algorithm and key identifier of the derived public key are copied. Basic constraints are valid. The DNS names follow `SubjectAltNames` |

## Left out

- `Sign` is not modelled. It calls `x509.CreateCertificate` with a random source and DER encoding, and ends the process on failure.
- `CheckCertificate` is not modelled. Parsing, chain building, hostname and validity checks all happen inside `crypto/x509`. The function discards parse errors; a root or leaf that does not parse is nil, and the call then panics (in `AddCert` or in `Verify`); a verification error gives false.
- `WritePemToFile` is not modelled: file I/O and PEM framing.
- All `log` and `fmt` output is left out.
- `key.PublicKey`, `key.PublicKeyBitArray` and SHA-1 are not modelled. The key package is not part of this model, so these are parameters (`KeyService`) with no properties assumed. The 20-octet digest length is given by the type `Digest`.
- CertHandler.CreateCertificateTemplate: does not model that `append` may write the common name into spare capacity of the caller's `AlternativeNames` backing array. Nor does it model that the template's DNS names share storage with that slice. Values have no aliasing.
- CertHandler.CreateCertificateTemplate: `log.Fatal` ends the process. The model gives the result `Failure(NoSignatureAlgorithm)` instead. Public-key derivation and usage resolution run before that point and have no visible effects.
- CertHandler.GetUsage: does not distinguish the nil slice of a non-empty token list with no extended usage from the empty slice of the CA default. Both are the empty sequence.
- The type `X509.KeyUsage`: Go's `KeyUsage` is an `int`. It is modelled as a 16-bit mask because only bits 0 to 8 are ever set.
- Only the fields of `x509.Certificate` that the builder sets are modelled.
- The input's `commonName`, `alternativeNames`, `usage` and `signatureAlg` are Dafny strings of Unicode scalar values, so a Go string holding invalid UTF-8 has no counterpart. The builder only compares these strings for equality, so nothing it computes depends on the difference.
- No ordering of `ValidFrom` and `ValidTo` is checked, and serial numbers are not checked for positivity, uniqueness or a 20-octet limit. The source checks none of these either.
