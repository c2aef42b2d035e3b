/** The certificate-template policy of package `certificate`: it turns a flat
    certificate description into an x509 template, resolving key usages,
    choosing the signature algorithm from the signing key's family, deriving
    the subject key identifier and applying the rule that repeats the common
    name among the subject alternative names. */
module CertHandler {
  import opened X509

  // ---------------------------------------------------------------------------
  // Inputs and collaborators

  /** The private key handle, distinguished by its dynamic type as the
      source's type switch does; the key material stays with the key package. */
  datatype PrivateKey = RsaPrivateKey(handle: nat) | EcdsaPrivateKey(handle: nat) | OtherPrivateKey(handle: nat)

  /** An opaque public key handle. */
  datatype PublicKey = PublicKey(handle: nat)

  /** The external key package and the SHA-1 hash, as given functions:
      publicKey derives the public key of a private key, publicKeyBitArray
      serialises it (its error result is discarded by the caller, so only the
      bytes appear here), and sha1 digests bytes. */
  datatype KeyService = KeyService(
    publicKey: PrivateKey -> PublicKey,
    publicKeyBitArray: PublicKey -> seq<byte>,
    sha1: seq<byte> -> Digest)

  /** The flat certificate description. `id` is the byte content of the Go
      string; times are opaque instants. */
  datatype Certificate = Certificate(
    id: seq<byte>,
    country: string,
    organization: string,
    organizationalUnit: string,
    commonName: string,
    alternativeNames: seq<string>,
    usage: seq<string>,
    ca: bool,
    privateKey: PrivateKey,
    signatureAlg: string,
    validFrom: int,
    validTo: int)

  /** The fatal condition of the source: no signature algorithm for the key. */
  datatype Error = NoSignatureAlgorithm

  datatype Result<T> = Success(value: T) | Failure(error: Error)

  // ---------------------------------------------------------------------------
  // Usage tokens

  /** The key usage a token names, if any. */
  function KeyUsageToken(token: string): Option<KeyUsageBit>
  {
    match token
    case "crlsign" => Some(CRLSign)
    case "certsign" => Some(CertSign)
    case "encipherment" => Some(KeyEncipherment)
    case "signature" => Some(DigitalSignature)
    case "contentcommitment" => Some(ContentCommitment)
    case _ => None
  }

  /** The extended key usage a token names, if any. */
  function ExtKeyUsageToken(token: string): Option<ExtKeyUsage>
  {
    match token
    case "clientauth" => Some(ClientAuth)
    case "serverauth" => Some(ServerAuth)
    case _ => None
  }

  /** No token names both a key usage and an extended key usage. */
  lemma TokenKindsDisjoint(token: string)
    ensures KeyUsageToken(token).None? || ExtKeyUsageToken(token).None?
  {
  }

  /** The key usages named by a token list, read left to right. */
  function RequestedKeyUsage(tokens: seq<string>): set<KeyUsageBit>
  {
    if tokens == [] then {}
    else
      var last := tokens[|tokens| - 1];
      RequestedKeyUsage(tokens[..|tokens| - 1])
        + (if KeyUsageToken(last).Some? then {KeyUsageToken(last).value} else {})
  }

  /** The extended key usages named by a token list, read left to right. */
  function RequestedExtKeyUsage(tokens: seq<string>): seq<ExtKeyUsage>
  {
    if tokens == [] then []
    else
      var last := tokens[|tokens| - 1];
      RequestedExtKeyUsage(tokens[..|tokens| - 1])
        + (if ExtKeyUsageToken(last).Some? then [ExtKeyUsageToken(last).value] else [])
  }

  /** A usage is requested exactly when some token of the list names it. */
  lemma {:induction false} RequestedKeyUsageMembers(tokens: seq<string>, b: KeyUsageBit)
    ensures b in RequestedKeyUsage(tokens) <==> exists t :: t in tokens && KeyUsageToken(t) == Some(b)
  {
    if tokens != [] {
      var init := tokens[..|tokens| - 1];
      RequestedKeyUsageMembers(init, b);
      assert tokens == init + [tokens[|tokens| - 1]];
      assert forall t :: t in tokens <==> t in init || t == tokens[|tokens| - 1];
    }
  }

  /** The requested key usages depend only on which tokens occur, not on
      their order nor on how often they repeat. */
  lemma RequestedKeyUsageIgnoresOrder(tokens: seq<string>, others: seq<string>)
    requires forall t :: t in tokens <==> t in others
    ensures RequestedKeyUsage(tokens) == RequestedKeyUsage(others)
  {
    forall b: KeyUsageBit ensures b in RequestedKeyUsage(tokens) <==> b in RequestedKeyUsage(others) {
      RequestedKeyUsageMembers(tokens, b);
      RequestedKeyUsageMembers(others, b);
    }
  }

  /** The extended key usages of two lists read one after the other are those
      of the first followed by those of the second: input order is kept and
      duplicates are not removed. */
  lemma {:induction false} RequestedExtKeyUsageAppend(tokens: seq<string>, more: seq<string>)
    ensures RequestedExtKeyUsage(tokens + more) == RequestedExtKeyUsage(tokens) + RequestedExtKeyUsage(more)
  {
    if more == [] {
      assert tokens + more == tokens;
    } else {
      var init := more[..|more| - 1];
      RequestedExtKeyUsageAppend(tokens, init);
      assert (tokens + more)[..|tokens + more| - 1] == tokens + init;
    }
  }

  /** A single token contributes its extended key usage, or nothing. */
  lemma RequestedExtKeyUsageSingle(token: string)
    ensures RequestedExtKeyUsage([token]) == if ExtKeyUsageToken(token).Some? then [ExtKeyUsageToken(token).value] else []
  {
  }

  /** An extended key usage is listed exactly when some token names it. */
  lemma {:induction false} RequestedExtKeyUsageMembers(tokens: seq<string>, e: ExtKeyUsage)
    ensures e in RequestedExtKeyUsage(tokens) <==> exists t :: t in tokens && ExtKeyUsageToken(t) == Some(e)
  {
    if tokens != [] {
      var init := tokens[..|tokens| - 1];
      RequestedExtKeyUsageMembers(init, e);
      assert tokens == init + [tokens[|tokens| - 1]];
      assert forall t :: t in tokens <==> t in init || t == tokens[|tokens| - 1];
    }
  }

  // ---------------------------------------------------------------------------
  // Usage resolution

  /** The key usage of a description that names none. */
  function DefaultKeyUsage(ca: bool): (r: KeyUsage)
    ensures ca ==> r == KeyUsageValue({CertSign, CRLSign})
    ensures !ca ==> r == KeyUsageValue({KeyEncipherment, DigitalSignature})
  {
    if ca then KeyUsageCRLSign | KeyUsageCertSign
    else KeyUsageKeyEncipherment | KeyUsageDigitalSignature
  }

  /** The extended key usage of a description that names none: none for a CA,
      what "clientauth" then "serverauth" would request otherwise. */
  function DefaultExtKeyUsage(ca: bool): (r: seq<ExtKeyUsage>)
    ensures ca ==> r == []
    ensures !ca ==> r == RequestedExtKeyUsage(["clientauth", "serverauth"])
  {
    assert ["clientauth", "serverauth"][..1] == ["clientauth"];
    assert ["clientauth"][..0] == [];
    if ca then [] else [ClientAuth, ServerAuth]
  }

  /** What getUsage returns: the defaults for an empty list, otherwise the
      union of the named key usages and the named extended key usages in
      input order. */
  function ResolveUsage(usage: seq<string>, ca: bool): (KeyUsage, seq<ExtKeyUsage>)
  {
    if usage == [] then (DefaultKeyUsage(ca), DefaultExtKeyUsage(ca))
    else (KeyUsageValue(RequestedKeyUsage(usage)), RequestedExtKeyUsage(usage))
  }

  /** For a non-empty list, a usage's bit is set in the resolved mask exactly
      when some token names that usage. */
  lemma ResolvedKeyUsageBits(usage: seq<string>, ca: bool, b: KeyUsageBit)
    requires usage != []
    ensures ResolveUsage(usage, ca).0 & Flag(b) != 0 <==> exists t :: t in usage && KeyUsageToken(t) == Some(b)
  {
    KeyUsageValueHasFlag(RequestedKeyUsage(usage), b);
    RequestedKeyUsageMembers(usage, b);
  }

  /** A non-empty list of unrecognised tokens resolves to no usage at all,
      not to the defaults. */
  lemma UnknownTokensResolveToNothing(usage: seq<string>, ca: bool)
    requires usage != []
    requires forall t :: t in usage ==> KeyUsageToken(t).None? && ExtKeyUsageToken(t).None?
    ensures ResolveUsage(usage, ca) == (0, [])
  {
    forall b: KeyUsageBit ensures b !in RequestedKeyUsage(usage) {
      RequestedKeyUsageMembers(usage, b);
    }
    assert RequestedKeyUsage(usage) == {};
    var ext := RequestedExtKeyUsage(usage);
    if ext != [] {
      RequestedExtKeyUsageMembers(usage, ext[0]);
    }
  }

  /** What the token list a CA would otherwise have to spell out requests. */
  lemma CaTokens()
    ensures RequestedKeyUsage(["crlsign", "certsign"]) == {CertSign, CRLSign}
    ensures RequestedExtKeyUsage(["crlsign", "certsign"]) == []
  {
  }

  /** What the token list any other certificate would otherwise have to spell out requests. */
  lemma EndEntityTokens()
    ensures RequestedKeyUsage(["encipherment", "signature", "clientauth", "serverauth"]) == {KeyEncipherment, DigitalSignature}
    ensures RequestedExtKeyUsage(["encipherment", "signature", "clientauth", "serverauth"]) == [ClientAuth, ServerAuth]
  {
    var tokens := ["encipherment", "signature", "clientauth", "serverauth"];
    EndEntityKeyUsage(tokens);
    var head, tail := ["encipherment", "signature"], ["clientauth", "serverauth"];
    assert tokens == head + tail;
    RequestedExtKeyUsageAppend(head, tail);
    assert head[..1] == ["encipherment"] && tail[..1] == ["clientauth"];
  }

  /** The key usages of the end-entity token list: the two extended-usage
      tokens at its end add nothing. */
  lemma EndEntityKeyUsage(tokens: seq<string>)
    requires tokens == ["encipherment", "signature", "clientauth", "serverauth"]
    ensures RequestedKeyUsage(tokens) == {KeyEncipherment, DigitalSignature}
  {
    assert tokens[..4] == tokens;
    RequestedUsageStep(tokens, 0);
    RequestedUsageStep(tokens, 1);
    RequestedUsageStep(tokens, 2);
    RequestedUsageStep(tokens, 3);
    assert KeyUsageToken("clientauth") == None && KeyUsageToken("serverauth") == None;
    assert RequestedKeyUsage(tokens[..2]) == {KeyEncipherment, DigitalSignature};
  }

  /** The defaults are what the corresponding explicit token lists request. */
  lemma DefaultsAreExplicitTokens(ca: bool)
    ensures ca ==> ResolveUsage([], ca) == ResolveUsage(["crlsign", "certsign"], ca)
    ensures !ca ==> ResolveUsage([], ca) == ResolveUsage(["encipherment", "signature", "clientauth", "serverauth"], ca)
  {
    if ca {
      CaTokens();
    } else {
      EndEntityTokens();
    }
  }

  /** Reading one more token adds what that token names. */
  lemma RequestedUsageStep(tokens: seq<string>, i: nat)
    requires i < |tokens|
    ensures RequestedKeyUsage(tokens[..i + 1]) == RequestedKeyUsage(tokens[..i])
      + (if KeyUsageToken(tokens[i]).Some? then {KeyUsageToken(tokens[i]).value} else {})
    ensures RequestedExtKeyUsage(tokens[..i + 1]) == RequestedExtKeyUsage(tokens[..i])
      + (if ExtKeyUsageToken(tokens[i]).Some? then [ExtKeyUsageToken(tokens[i]).value] else [])
  {
    assert tokens[..i + 1][..i] == tokens[..i];
  }

  /** One round of getUsage's switch: OR a recognised usage's flag into the
      mask, or append a recognised extended usage; ignore anything else. */
  method ApplyToken(keyUsage: KeyUsage, extKeyUsage: seq<ExtKeyUsage>, key: string)
    returns (keyUsage': KeyUsage, extKeyUsage': seq<ExtKeyUsage>)
    ensures KeyUsageToken(key).Some? ==> keyUsage' == keyUsage | Flag(KeyUsageToken(key).value)
    ensures KeyUsageToken(key).None? ==> keyUsage' == keyUsage
    ensures ExtKeyUsageToken(key).Some? ==> extKeyUsage' == extKeyUsage + [ExtKeyUsageToken(key).value]
    ensures ExtKeyUsageToken(key).None? ==> extKeyUsage' == extKeyUsage
  {
    keyUsage', extKeyUsage' := keyUsage, extKeyUsage;
    match key
    case "crlsign" =>
      keyUsage' := keyUsage | KeyUsageCRLSign;
    case "certsign" =>
      keyUsage' := keyUsage | KeyUsageCertSign;
    case "encipherment" =>
      keyUsage' := keyUsage | KeyUsageKeyEncipherment;
    case "signature" =>
      keyUsage' := keyUsage | KeyUsageDigitalSignature;
    case "contentcommitment" =>
      keyUsage' := keyUsage | KeyUsageContentCommitment;
    case "clientauth" =>
      extKeyUsage' := extKeyUsage + [ClientAuth];
    case "serverauth" =>
      extKeyUsage' := extKeyUsage + [ServerAuth];
    case _ =>
  }

  /** getUsage: the key usage mask is OR-accumulated and the extended key
      usages appended, token by token. */
  method GetUsage(usage: seq<string>, ca: bool) returns (keyUsage: KeyUsage, extKeyUsage: seq<ExtKeyUsage>)
    ensures (keyUsage, extKeyUsage) == ResolveUsage(usage, ca)
  {
    if |usage| == 0 {
      return DefaultKeyUsage(ca), DefaultExtKeyUsage(ca);
    }
    keyUsage, extKeyUsage := 0, [];
    ghost var requested: set<KeyUsageBit> := {};
    for i := 0 to |usage|
      invariant requested == RequestedKeyUsage(usage[..i])
      invariant keyUsage == KeyUsageValue(requested)
      invariant extKeyUsage == RequestedExtKeyUsage(usage[..i])
    {
      RequestedUsageStep(usage, i);
      ghost var t := KeyUsageToken(usage[i]);
      keyUsage, extKeyUsage := ApplyToken(keyUsage, extKeyUsage, usage[i]);
      if t.Some? {
        KeyUsageValueAdd(requested, t.value);
        requested := requested + {t.value};
      }
    }
    assert usage[..|usage|] == usage;
  }

  // ---------------------------------------------------------------------------
  // Signature algorithm selection

  /** The digest a hash token asks for; anything unrecognised, including the
      empty string, asks for SHA-256. */
  function RequestedHash(algType: string): Hash
  {
    match algType
    case "SHA1" => SHA1
    case "SHA384" => SHA384
    case "SHA512" => SHA512
    case _ => SHA256
  }

  function FindEcdsaSignAlg(algType: string): (r: SignatureAlgorithm)
    ensures KeyAlgorithm(r) == Some(ECDSA) && HashOf(r) == Some(RequestedHash(algType))
    ensures algType !in ["SHA1", "SHA256", "SHA384", "SHA512"] ==> r == ECDSAWithSHA256
  {
    match algType
    case "SHA1" => ECDSAWithSHA1
    case "SHA256" => ECDSAWithSHA256
    case "SHA384" => ECDSAWithSHA384
    case "SHA512" => ECDSAWithSHA512
    case _ => ECDSAWithSHA256
  }

  function FindRsaSignAlg(algType: string): (r: SignatureAlgorithm)
    ensures KeyAlgorithm(r) == Some(RSA) && HashOf(r) == Some(RequestedHash(algType))
    ensures algType !in ["SHA1", "SHA256", "SHA384", "SHA512"] ==> r == SHA256WithRSA
  {
    match algType
    case "SHA1" => SHA1WithRSA
    case "SHA256" => SHA256WithRSA
    case "SHA384" => SHA384WithRSA
    case "SHA512" => SHA512WithRSA
    case _ => SHA256WithRSA
  }

  /** signatureAlgorithm: an algorithm of the signing key's own family with
      the requested digest; a key of any other type has none (fatal in the
      source). */
  function SignatureAlgorithm(algType: string, privateKey: PrivateKey): (r: Result<X509.SignatureAlgorithm>)
    ensures r.Failure? <==> privateKey.OtherPrivateKey?
    ensures r.Failure? ==> r.error == NoSignatureAlgorithm
    ensures r.Success? ==> HashOf(r.value) == Some(RequestedHash(algType))
    ensures r.Success? ==> (KeyAlgorithm(r.value) == Some(RSA) <==> privateKey.RsaPrivateKey?)
    ensures r.Success? ==> (KeyAlgorithm(r.value) == Some(ECDSA) <==> privateKey.EcdsaPrivateKey?)
  {
    match privateKey
    case RsaPrivateKey(_) => Success(FindRsaSignAlg(algType))
    case EcdsaPrivateKey(_) => Success(FindEcdsaSignAlg(algType))
    case OtherPrivateKey(_) => Failure(NoSignatureAlgorithm)
  }

  /** The selected algorithm is the only one of the key's family with the
      requested digest, so the two families never share a selection. */
  lemma SignatureAlgorithmUnique(algType: string, privateKey: PrivateKey, other: X509.SignatureAlgorithm)
    requires SignatureAlgorithm(algType, privateKey).Success?
    requires KeyAlgorithm(other) == KeyAlgorithm(SignatureAlgorithm(algType, privateKey).value)
    requires HashOf(other) == Some(RequestedHash(algType))
    ensures other == SignatureAlgorithm(algType, privateKey).value
  {
  }

  // ---------------------------------------------------------------------------
  // Membership, key identifier and subject alternative names

  /** isStringInList: a scan with an early return. */
  method IsStringInList(value: string, list: seq<string>) returns (found: bool)
    ensures found <==> value in list
  {
    for i := 0 to |list|
      invariant value !in list[..i]
    {
      if list[i] == value {
        return true;
      }
    }
    assert list[..|list|] == list;
    return false;
  }

  /** keyIdentifier: the SHA-1 digest of the public key's serialised bits. */
  function KeyIdentifier(keys: KeyService, pub: PublicKey): Digest
  {
    keys.sha1(keys.publicKeyBitArray(pub))
  }

  /** The identifier depends only on the serialised key, so a key always
      yields the same identifier. */
  lemma KeyIdentifierDeterministic(keys: KeyService, pub: PublicKey, other: PublicKey)
    requires keys.publicKeyBitArray(pub) == keys.publicKeyBitArray(other)
    ensures KeyIdentifier(keys, pub) == KeyIdentifier(keys, other)
  {
  }

  /** The DNS names of the template: unset without alternative names;
      otherwise the alternative names unchanged, followed by the common name
      when it is not among them (also when it is empty). */
  function SubjectAltNames(alternativeNames: seq<string>, commonName: string): (dns: seq<string>)
    ensures alternativeNames == [] ==> dns == []
    ensures alternativeNames != [] ==> |alternativeNames| <= |dns| <= |alternativeNames| + 1
    ensures alternativeNames != [] ==> dns[..|alternativeNames|] == alternativeNames && commonName in dns
    ensures alternativeNames != [] ==> (|dns| == |alternativeNames| + 1 <==> commonName !in alternativeNames)
  {
    if |alternativeNames| == 0 then []
    else if commonName in alternativeNames then alternativeNames
    else alternativeNames + [commonName]
  }

  /** The repeated common name comes last, not first, and an empty common
      name is repeated too. */
  lemma CommonNameRepeatedLast()
    ensures SubjectAltNames(["b.com"], "a.com") == ["b.com", "a.com"]
    ensures SubjectAltNames(["b.com"], "") == ["b.com", ""]
    ensures SubjectAltNames([], "a.com") == []
  {
  }

  // ---------------------------------------------------------------------------
  // The template builder

  /** CreateCertificateTemplate: builds the template, then sets the subject's
      common name and the DNS names in place. */
  method CreateCertificateTemplate(data: Certificate, keys: KeyService) returns (r: Result<X509.Certificate>)
    ensures r.Failure? <==> data.privateKey.OtherPrivateKey?
    ensures r.Failure? ==> r.error == NoSignatureAlgorithm
    ensures r.Success? ==> r.value.serialNumber == SetBytes(data.id)
    ensures r.Success? ==> r.value.subject == Name([data.country], [data.organization], [data.organizationalUnit], data.commonName)
    ensures r.Success? ==> r.value.notBefore == data.validFrom && r.value.notAfter == data.validTo
    ensures r.Success? ==> r.value.subjectKeyId == KeyIdentifier(keys, keys.publicKey(data.privateKey))
    ensures r.Success? ==> r.value.basicConstraintsValid && r.value.isCA == data.ca
    ensures r.Success? ==> Success(r.value.signatureAlgorithm) == SignatureAlgorithm(data.signatureAlg, data.privateKey)
    ensures r.Success? ==> (r.value.keyUsage, r.value.extKeyUsage) == ResolveUsage(data.usage, data.ca)
    ensures r.Success? ==> r.value.dnsNames == SubjectAltNames(data.alternativeNames, data.commonName)
  {
    var pub := keys.publicKey(data.privateKey);
    var subjectKeyId := KeyIdentifier(keys, pub);
    var keyUsage, extKeyUsage := GetUsage(data.usage, data.ca);
    var signatureAlg := SignatureAlgorithm(data.signatureAlg, data.privateKey);
    if signatureAlg.Failure? {
      return Failure(signatureAlg.error);
    }
    var cert := X509.Certificate(
      serialNumber := SetBytes(data.id),
      subject := Name([data.country], [data.organization], [data.organizationalUnit], ""),
      notBefore := data.validFrom,
      notAfter := data.validTo,
      subjectKeyId := subjectKeyId,
      basicConstraintsValid := true,
      signatureAlgorithm := signatureAlg.value,
      isCA := data.ca,
      extKeyUsage := extKeyUsage,
      keyUsage := keyUsage,
      dnsNames := []);

    if data.commonName != "" {
      cert := cert.(subject := cert.subject.(commonName := data.commonName));
    }

    if |data.alternativeNames| > 0 {
      cert := cert.(dnsNames := data.alternativeNames);
      var present := IsStringInList(data.commonName, data.alternativeNames);
      if !present {
        cert := cert.(dnsNames := cert.dnsNames + [data.commonName]);
      }
    }
    return Success(cert);
  }
}
