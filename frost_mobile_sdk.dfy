/** The Rust SDK's configuration checks and key-material conversions
    (frost-mobile-sdk/src/lib.rs). The frost crate's values are represented by
    their canonical encodings; its deserializers, the serializer of secret
    shares, hex encoding and the trusted dealer are parameters. */
module FrostMobileSdk {
  import opened Wrappers
  import opened MachineInts

  /** A participant identifier as it crosses the FFI: raw bytes. */
  datatype ParticipantIdentifier = ParticipantIdentifier(data: seq<byte>)

  datatype ParticipantList = ParticipantList(identifiers: seq<ParticipantIdentifier>)

  /** The crate's `Identifier`, a scalar given by its canonical encoding;
      `Identifier::serialize` reads that encoding. */
  datatype Identifier = Identifier(encoding: seq<byte>)

  datatype VerifyingShare = VerifyingShare(encoding: seq<byte>)

  datatype VerifyingKey = VerifyingKey(encoding: seq<byte>)

  /** The crate's `SecretShare`: the identifier it embeds and its key material. */
  datatype SecretShare = SecretShare(identifier: Identifier, material: seq<byte>)

  datatype PublicKeyPackage = PublicKeyPackage(
    verifyingShares: map<Identifier, VerifyingShare>,
    verifyingKey: VerifyingKey)

  datatype FrostSecretKeyShare = FrostSecretKeyShare(identifier: ParticipantIdentifier, data: seq<byte>)

  /** The FFI form of a public key package: hex strings keyed by participant. */
  datatype FrostPublicKeyPackage = FrostPublicKeyPackage(
    verifyingShares: map<ParticipantIdentifier, string>,
    verifyingKey: string)

  datatype TrustedKeyGeneration = TrustedKeyGeneration(
    secretShares: map<ParticipantIdentifier, FrostSecretKeyShare>,
    publicKeyPackage: FrostPublicKeyPackage)

  datatype Configuration = Configuration(minSigners: u16, maxSigners: u16, secret: seq<byte>)

  datatype ConfigurationError = InvalidMaxSigners | InvalidMinSigners | InvalidIdentifier | UnknownError

  /** The frost crate's `Error`: the cases this file names, and the rest. */
  datatype CrateError =
    | InvalidMinSigners
    | InvalidMaxSigners
    | DeserializationError
    | SerializationError
    | UnknownIdentifier
    | OtherCrateError(code: nat)

  /** The crate's (de)serializers and the `hex` crate. A deserializer may fail. */
  datatype Codec = Codec(
    deserializeIdentifier: seq<byte> -> Result<Identifier, CrateError>,
    deserializeVerifyingKey: seq<byte> -> Result<VerifyingKey, CrateError>,
    deserializeVerifyingShare: seq<byte> -> Result<VerifyingShare, CrateError>,
    serializeSecretShare: SecretShare -> Option<seq<byte>>,
    deserializeSecretShare: seq<byte> -> Option<SecretShare>,
    hexEncode: seq<byte> -> string,
    hexDecode: string -> Option<seq<byte>>)

  /** `trusted_dealer_keygen` with its random number generator: the shares it
      deals, keyed by identifier, and the group's public key package. */
  type Dealer = (Configuration, seq<Identifier>) -> Result<(map<Identifier, SecretShare>, PublicKeyPackage), CrateError>

  /** `trusted_dealer_keygen_from_configuration`, already lowered to FFI records. */
  type ConfigurationDealer = Configuration -> Result<(FrostPublicKeyPackage, map<ParticipantIdentifier, FrostSecretKeyShare>), CrateError>

  /** `.map_err(|_| e)` on a fallible call whose own error is discarded. */
  function OrError<T>(o: Option<T>, e: CrateError): (r: Result<T, CrateError>)
    ensures r.Success? <==> o.Some?
    ensures r.Success? ==> o == Some(r.value)
    ensures r.Failure? ==> r.error == e
  {
    match o
    case Some(v) => Success(v)
    case None => Failure(e)
  }

  // ---------------------------------------------------------------------------
  // Threshold parameters

  /** `validate_config`: the minimum is checked first, then the maximum, then
      their order. */
  function ValidateConfig(config: Configuration): (r: Outcome<ConfigurationError>)
    ensures r == Pass <==> 2 <= config.minSigners <= config.maxSigners
    ensures config.minSigners < 2 ==> r == Fail(ConfigurationError.InvalidMinSigners)
    ensures 2 <= config.minSigners && config.maxSigners < 2 ==> r == Fail(ConfigurationError.InvalidMaxSigners)
    ensures 2 <= config.maxSigners < config.minSigners ==> r == Fail(ConfigurationError.InvalidMinSigners)
  {
    if config.minSigners < 2 then
      Fail(ConfigurationError.InvalidMinSigners)
    else if config.maxSigners < 2 then
      Fail(ConfigurationError.InvalidMaxSigners)
    else if config.minSigners > config.maxSigners then
      Fail(ConfigurationError.InvalidMinSigners)
    else
      Pass
  }

  /** The re-mapping of the dealer's errors: only the two threshold errors keep
      their meaning, everything else becomes `UnknownError`. */
  function KeygenError(e: CrateError): (r: ConfigurationError)
    ensures r == ConfigurationError.InvalidMaxSigners <==> e == CrateError.InvalidMaxSigners
    ensures r == ConfigurationError.InvalidMinSigners <==> e == CrateError.InvalidMinSigners
    ensures r == ConfigurationError.UnknownError <==> !(e.InvalidMaxSigners? || e.InvalidMinSigners?)
  {
    match e
    case InvalidMaxSigners => ConfigurationError.InvalidMaxSigners
    case InvalidMinSigners => ConfigurationError.InvalidMinSigners
    case _ => ConfigurationError.UnknownError
  }

  /** `trusted_dealer_keygen_from`: the dealer's records pass through, its
      errors are re-mapped. */
  function TrustedDealerKeygenFrom(configuration: Configuration, dealer: ConfigurationDealer): (r: Result<TrustedKeyGeneration, ConfigurationError>)
    ensures r.Success? <==> dealer(configuration).Success?
    ensures r.Failure? ==> r.error == KeygenError(dealer(configuration).error) && !r.error.InvalidIdentifier?
    ensures r.Success? ==>
      r.value.publicKeyPackage == dealer(configuration).value.0 && r.value.secretShares == dealer(configuration).value.1
  {
    match dealer(configuration)
    case Failure(e) => Failure(KeygenError(e))
    case Success((pubkey, secretShares)) => Success(TrustedKeyGeneration(secretShares, pubkey))
  }

  // ---------------------------------------------------------------------------
  // 32-byte prefixes

  /** A computation that either returns or panics. */
  datatype Panicking<+T> = Returns(value: T) | Panics

  /** `bytes[0..32].try_into().map_err(|_| DeserializationError)` as written:
      the slice panics on fewer than 32 bytes, and a 32-byte slice always
      converts, so the `map_err` never produces its error. */
  function Take32AsWritten(bytes: seq<byte>): (p: Panicking<Result<seq<byte>, CrateError>>)
    ensures p.Panics? <==> |bytes| < 32
    ensures p.Returns? ==> p.value.Success? && |p.value.value| == 32
  {
    if |bytes| < 32 then Panics else Returns(Success(bytes[..32]))
  }

  /** The 32-byte prefix, with the short input reported as the
      `DeserializationError` the `map_err` was written for. */
  function Take32(bytes: seq<byte>): (r: Result<seq<byte>, CrateError>)
    ensures r.Success? <==> |bytes| >= 32
    ensures r.Success? ==> |r.value| == 32 && r.value == bytes[..32]
    ensures r.Failure? ==> r.error == DeserializationError
    ensures Take32AsWritten(bytes).Returns? ==> Take32AsWritten(bytes).value == r
  {
    if |bytes| < 32 then Failure(DeserializationError) else Success(bytes[..32])
  }

  /** `ParticipantIdentifier::into_identifier` as written. */
  function IntoIdentifierAsWritten(p: ParticipantIdentifier, codec: Codec): (q: Panicking<Result<Identifier, CrateError>>)
    ensures q.Panics? <==> |p.data| < 32
  {
    match Take32AsWritten(p.data)
    case Panics => Panics
    case Returns(raw) =>
      Returns(if raw.Failure? then Failure(raw.error) else codec.deserializeIdentifier(raw.value))
  }

  /** `ParticipantIdentifier::into_identifier`: deserializes the first 32 bytes
      and ignores the rest. */
  function IntoIdentifier(p: ParticipantIdentifier, codec: Codec): (r: Result<Identifier, CrateError>)
    ensures |p.data| < 32 ==> r == Failure(DeserializationError)
    ensures |p.data| >= 32 ==> r == codec.deserializeIdentifier(p.data[..32])
    ensures IntoIdentifierAsWritten(p, codec).Returns? ==> IntoIdentifierAsWritten(p, codec).value == r
  {
    var raw :- Take32(p.data);
    codec.deserializeIdentifier(raw)
  }

  /** Bytes past the 32nd never reach the deserializer. */
  lemma IntoIdentifierReadsPrefix(p: ParticipantIdentifier, q: ParticipantIdentifier, codec: Codec)
    requires |p.data| >= 32 && |q.data| >= 32
    requires p.data[..32] == q.data[..32]
    ensures IntoIdentifier(p, codec) == IntoIdentifier(q, codec)
  {
  }

  /** The finding: a short identifier panics in the code as written, where the
      corrected conversion reports `DeserializationError`. */
  lemma ShortIdentifierPanicsAsWritten(p: ParticipantIdentifier, codec: Codec)
    requires |p.data| < 32
    ensures IntoIdentifierAsWritten(p, codec) == Panics
    ensures IntoIdentifier(p, codec) == Failure(DeserializationError)
  {
  }

  /** `ParticipantIdentifier::from_identifier`: the canonical encoding. It is
      declared fallible but never fails, so the `?` after it never fires. */
  function FromIdentifier(id: Identifier): (p: ParticipantIdentifier)
    ensures p.data == id.encoding
  {
    ParticipantIdentifier(id.encoding)
  }

  /** `from_identifier` is injective: distinct identifiers never share a key. */
  lemma FromIdentifierInjective(a: Identifier, b: Identifier)
    requires FromIdentifier(a) == FromIdentifier(b)
    ensures a == b
  {
  }

  /** Converting an identifier and back yields it again, whenever its encoding is
      one the crate deserializes to it. */
  lemma FromIdentifierRoundTrip(id: Identifier, codec: Codec)
    requires |id.encoding| == 32 && codec.deserializeIdentifier(id.encoding) == Success(id)
    ensures IntoIdentifier(FromIdentifier(id), codec) == Success(id)
  {
    assert id.encoding[..32] == id.encoding;
  }

  // ---------------------------------------------------------------------------
  // Secret shares

  /** `FrostSecretKeyShare::to_secret_share`: the wrapper's identifier must be
      the one the share embeds. */
  function ToSecretShare(share: FrostSecretKeyShare, codec: Codec): (r: Result<SecretShare, CrateError>)
    ensures IntoIdentifier(share.identifier, codec).Failure? ==> r == Failure(IntoIdentifier(share.identifier, codec).error)
    ensures IntoIdentifier(share.identifier, codec).Success? && codec.deserializeSecretShare(share.data).None? ==>
      r == Failure(SerializationError)
    ensures IntoIdentifier(share.identifier, codec).Success? && codec.deserializeSecretShare(share.data).Some? ==>
      (r == Failure(UnknownIdentifier) <==>
       IntoIdentifier(share.identifier, codec).value != codec.deserializeSecretShare(share.data).value.identifier)
    ensures
      && IntoIdentifier(share.identifier, codec).Success?
      && codec.deserializeSecretShare(share.data).Some?
      && IntoIdentifier(share.identifier, codec).value == codec.deserializeSecretShare(share.data).value.identifier
      ==> r == Success(codec.deserializeSecretShare(share.data).value)
    ensures r.Success? ==>
      && codec.deserializeSecretShare(share.data) == Some(r.value)
      && IntoIdentifier(share.identifier, codec) == Success(r.value.identifier)
  {
    var identifier :- IntoIdentifier(share.identifier, codec);
    var secretShare :- OrError(codec.deserializeSecretShare(share.data), SerializationError);
    if identifier != secretShare.identifier then Failure(UnknownIdentifier) else Success(secretShare)
  }

  /** `FrostSecretKeyShare::from_secret_share`: the wrapper is keyed by the
      identifier the share embeds. */
  function FromSecretShare(share: SecretShare, codec: Codec): (r: Result<FrostSecretKeyShare, CrateError>)
    ensures r.Success? <==> codec.serializeSecretShare(share).Some?
    ensures r.Failure? ==> r.error == SerializationError
    ensures r.Success? ==>
      r.value.identifier == FromIdentifier(share.identifier) && Some(r.value.data) == codec.serializeSecretShare(share)
  {
    var serialized :- OrError(codec.serializeSecretShare(share), SerializationError);
    Success(FrostSecretKeyShare(FromIdentifier(share.identifier), serialized))
  }

  // ---------------------------------------------------------------------------
  // Public key packages

  /** `shares` holds one hex-encoded verifying share per identifier of
      `verifyingShares`, under that identifier's FFI form, and nothing else. */
  ghost predicate IsLoweringOf(shares: map<ParticipantIdentifier, string>, verifyingShares: map<Identifier, VerifyingShare>, codec: Codec)
  {
    && (forall id :: id in verifyingShares ==>
          FromIdentifier(id) in shares && shares[FromIdentifier(id)] == codec.hexEncode(verifyingShares[id].encoding))
    && (forall p :: p in shares ==> Identifier(p.data) in verifyingShares)
  }

  /** `FrostPublicKeyPackage::from_public_key_package`: never fails, and keeps
      exactly one entry per verifying share. */
  method FromPublicKeyPackage(keyPackage: PublicKeyPackage, codec: Codec) returns (r: Result<FrostPublicKeyPackage, CrateError>)
    ensures r.Success?
    ensures IsLoweringOf(r.value.verifyingShares, keyPackage.verifyingShares, codec)
    ensures |r.value.verifyingShares| == |keyPackage.verifyingShares|
    ensures r.value.verifyingKey == codec.hexEncode(keyPackage.verifyingKey.encoding)
  {
    var verifyingShares := keyPackage.verifyingShares;
    var shares: map<ParticipantIdentifier, string> := map[];
    var remaining := verifyingShares.Keys;
    while remaining != {}
      invariant remaining <= verifyingShares.Keys
      invariant forall id :: id in verifyingShares && id !in remaining ==>
        FromIdentifier(id) in shares && shares[FromIdentifier(id)] == codec.hexEncode(verifyingShares[id].encoding)
      invariant forall p :: p in shares ==> Identifier(p.data) in verifyingShares && Identifier(p.data) !in remaining
      invariant |shares| + |remaining| == |verifyingShares|
      decreases remaining
    {
      var id :| id in remaining;
      assert FromIdentifier(id) !in shares;
      shares := shares[FromIdentifier(id) := codec.hexEncode(verifyingShares[id].encoding)];
      remaining := remaining - {id};
    }
    r := Success(FrostPublicKeyPackage(shares, codec.hexEncode(keyPackage.verifyingKey.encoding)));
  }

  /** The verifying key of an FFI package: hex, then the 32-byte prefix, then
      the crate's deserializer; every failure becomes `DeserializationError`. */
  function ConvertVerifyingKey(hex: string, codec: Codec): (r: Result<VerifyingKey, CrateError>)
    ensures r.Failure? ==> r.error == DeserializationError
    ensures r.Success? <==>
      && codec.hexDecode(hex).Some?
      && |codec.hexDecode(hex).value| >= 32
      && codec.deserializeVerifyingKey(codec.hexDecode(hex).value[..32]).Success?
    ensures r.Success? ==> Success(r.value) == codec.deserializeVerifyingKey(codec.hexDecode(hex).value[..32])
  {
    var raw :- OrError(codec.hexDecode(hex), DeserializationError);
    var bytes :- Take32(raw);
    match codec.deserializeVerifyingKey(bytes)
    case Success(key) => Success(key)
    case Failure(_) => Failure(DeserializationError)
  }

  /** One entry of an FFI package: its identifier first, then its hex share,
      whose hex and length failures become `DeserializationError` while the
      share deserializer's own error passes through. */
  function ConvertVerifyingShare(p: ParticipantIdentifier, hex: string, codec: Codec): (r: Result<(Identifier, VerifyingShare), CrateError>)
    ensures IntoIdentifier(p, codec).Failure? ==> r == Failure(IntoIdentifier(p, codec).error)
    ensures IntoIdentifier(p, codec).Success? && codec.hexDecode(hex).None? ==> r == Failure(DeserializationError)
    ensures IntoIdentifier(p, codec).Success? && codec.hexDecode(hex).Some? && |codec.hexDecode(hex).value| < 32 ==>
      r == Failure(DeserializationError)
    ensures IntoIdentifier(p, codec).Success? && codec.hexDecode(hex).Some? && |codec.hexDecode(hex).value| >= 32 ==>
      (r.Success? <==> codec.deserializeVerifyingShare(codec.hexDecode(hex).value[..32]).Success?)
    ensures
      && IntoIdentifier(p, codec).Success? && codec.hexDecode(hex).Some? && |codec.hexDecode(hex).value| >= 32
      && codec.deserializeVerifyingShare(codec.hexDecode(hex).value[..32]).Failure?
      ==> r == Failure(codec.deserializeVerifyingShare(codec.hexDecode(hex).value[..32]).error)
    ensures r.Success? ==>
      && IntoIdentifier(p, codec) == Success(r.value.0)
      && Success(r.value.1) == codec.deserializeVerifyingShare(codec.hexDecode(hex).value[..32])
  {
    var identifier :- IntoIdentifier(p, codec);
    var raw :- OrError(codec.hexDecode(hex), DeserializationError);
    var bytes :- Take32(raw);
    var share :- codec.deserializeVerifyingShare(bytes);
    Success((identifier, share))
  }

  ghost predicate AllSharesConvert(shares: map<ParticipantIdentifier, string>, codec: Codec)
  {
    forall p :: p in shares ==> ConvertVerifyingShare(p, shares[p], codec).Success?
  }

  /** No two entries of an FFI package name the same crate identifier (two
      participant identifiers that agree on their first 32 bytes do). */
  ghost predicate IdentifiersDistinct(shares: map<ParticipantIdentifier, string>, codec: Codec)
  {
    forall p, q :: p in shares && q in shares && p != q ==>
      IntoIdentifier(p, codec) != IntoIdentifier(q, codec) || IntoIdentifier(p, codec).Failure?
  }

  /** `btree` holds an entry for every converted entry of `shares`, and each of
      its entries is the conversion of some entry of `shares`. */
  ghost predicate IsRaisingOf(btree: map<Identifier, VerifyingShare>, shares: map<ParticipantIdentifier, string>, codec: Codec)
  {
    && (forall p :: p in shares ==>
          ConvertVerifyingShare(p, shares[p], codec).Success? && ConvertVerifyingShare(p, shares[p], codec).value.0 in btree)
    && (forall id :: id in btree ==>
          exists p :: p in shares && ConvertVerifyingShare(p, shares[p], codec) == Success((id, btree[id])))
  }

  /** `FrostPublicKeyPackage::into_public_key_package`: the verifying key is
      converted first, then every entry in the map's iteration order; any
      failure aborts the whole conversion. */
  method IntoPublicKeyPackage(package: FrostPublicKeyPackage, codec: Codec) returns (r: Result<PublicKeyPackage, CrateError>)
    ensures ConvertVerifyingKey(package.verifyingKey, codec).Failure? ==>
      r == Failure(ConvertVerifyingKey(package.verifyingKey, codec).error)
    ensures r.Success? <==> ConvertVerifyingKey(package.verifyingKey, codec).Success? && AllSharesConvert(package.verifyingShares, codec)
    ensures r.Failure? && ConvertVerifyingKey(package.verifyingKey, codec).Success? ==>
      exists p :: p in package.verifyingShares && ConvertVerifyingShare(p, package.verifyingShares[p], codec) == Failure(r.error)
    ensures r.Success? ==>
      && Success(r.value.verifyingKey) == ConvertVerifyingKey(package.verifyingKey, codec)
      && IsRaisingOf(r.value.verifyingShares, package.verifyingShares, codec)
      && |r.value.verifyingShares| <= |package.verifyingShares|
    ensures r.Success? && IdentifiersDistinct(package.verifyingShares, codec) ==>
      |r.value.verifyingShares| == |package.verifyingShares|
  {
    var verifyingKey := ConvertVerifyingKey(package.verifyingKey, codec);
    if verifyingKey.Failure? {
      return Failure(verifyingKey.error);
    }
    var shares := package.verifyingShares;
    var btree: map<Identifier, VerifyingShare> := map[];
    var remaining := shares.Keys;
    while remaining != {}
      invariant remaining <= shares.Keys
      invariant forall p :: p in shares && p !in remaining ==>
        ConvertVerifyingShare(p, shares[p], codec).Success? && ConvertVerifyingShare(p, shares[p], codec).value.0 in btree
      invariant forall id :: id in btree ==>
        exists p :: p in shares && p !in remaining && ConvertVerifyingShare(p, shares[p], codec) == Success((id, btree[id]))
      invariant |btree| + |remaining| <= |shares|
      invariant IdentifiersDistinct(shares, codec) ==> |btree| + |remaining| == |shares|
      decreases remaining
    {
      var p :| p in remaining;
      var entry := ConvertVerifyingShare(p, shares[p], codec);
      if entry.Failure? {
        return Failure(entry.error);
      }
      var (id, share) := entry.value;
      btree := btree[id := share];
      remaining := remaining - {p};
    }
    r := Success(PublicKeyPackage(btree, verifyingKey.value));
  }

  /** Without colliding identifiers, every entry lands under its own
      identifier with its own share. */
  lemma RaisingWithoutCollisions(btree: map<Identifier, VerifyingShare>, shares: map<ParticipantIdentifier, string>, codec: Codec, p: ParticipantIdentifier)
    requires IsRaisingOf(btree, shares, codec) && IdentifiersDistinct(shares, codec)
    requires p in shares
    ensures ConvertVerifyingShare(p, shares[p], codec).Success?
    ensures var (id, share) := ConvertVerifyingShare(p, shares[p], codec).value; id in btree && btree[id] == share
  {
    var (id, share) := ConvertVerifyingShare(p, shares[p], codec).value;
    var q :| q in shares && ConvertVerifyingShare(q, shares[q], codec) == Success((id, btree[id]));
  }

  // ---------------------------------------------------------------------------
  // Trusted-dealer key generation with custom identifiers

  /** The identifier list handed to the dealer: every participant identifier
      converted in order, or `InvalidIdentifier` if any one fails. */
  function ConvertIdentifiers(ps: seq<ParticipantIdentifier>, codec: Codec): (r: Result<seq<Identifier>, ConfigurationError>)
    ensures r.Success? <==> forall i :: 0 <= i < |ps| ==> IntoIdentifier(ps[i], codec).Success?
    ensures r.Failure? ==> r.error == ConfigurationError.InvalidIdentifier
    ensures r.Success? ==> |r.value| == |ps| && forall i :: 0 <= i < |ps| ==> IntoIdentifier(ps[i], codec) == Success(r.value[i])
  {
    if ps == [] then
      Success([])
    else
      var head := IntoIdentifier(ps[0], codec);
      if head.Failure? then
        Failure(ConfigurationError.InvalidIdentifier)
      else
        var tail :- ConvertIdentifiers(ps[1..], codec);
        assert forall i :: 1 <= i < |ps| ==> ps[i] == ps[1..][i - 1];
        Success([head.value] + tail)
  }

  ghost predicate AllSecretSharesSerialize(shares: map<Identifier, SecretShare>, codec: Codec)
  {
    forall id :: id in shares ==> FromSecretShare(shares[id], codec).Success?
  }

  /** `t` is the FFI form of the dealer's output: the public key package as
      `from_public_key_package` lowers it, and one secret-share wrapper per
      dealt share under the FFI form of its identifier. */
  ghost predicate IsKeyGenerationOf(t: TrustedKeyGeneration, shares: map<Identifier, SecretShare>, pubkey: PublicKeyPackage, codec: Codec)
  {
    && t.publicKeyPackage.verifyingKey == codec.hexEncode(pubkey.verifyingKey.encoding)
    && IsLoweringOf(t.publicKeyPackage.verifyingShares, pubkey.verifyingShares, codec)
    && |t.publicKeyPackage.verifyingShares| == |pubkey.verifyingShares|
    && (forall id :: id in shares ==>
          FromIdentifier(id) in t.secretShares && FromSecretShare(shares[id], codec) == Success(t.secretShares[FromIdentifier(id)]))
    && (forall p :: p in t.secretShares ==> Identifier(p.data) in shares)
    && |t.secretShares| == |shares|
  }

  /** `trusted_dealer_keygen_with_identifiers`: the signer count is checked
      before anything else, then every identifier is converted, then the dealer
      runs, then its output is lowered to FFI records. */
  method TrustedDealerKeygenWithIdentifiers(configuration: Configuration, participants: ParticipantList, codec: Codec, dealer: Dealer)
    returns (r: Result<TrustedKeyGeneration, ConfigurationError>)
    ensures configuration.maxSigners as int != |participants.identifiers| ==> r == Failure(ConfigurationError.InvalidMaxSigners)
    ensures configuration.maxSigners as int == |participants.identifiers| ==>
      var ids := ConvertIdentifiers(participants.identifiers, codec);
      if ids.Failure? then
        r == Failure(ConfigurationError.InvalidIdentifier)
      else
        var dealt := dealer(configuration, ids.value);
        if dealt.Failure? then
          r == Failure(KeygenError(dealt.error))
        else if AllSecretSharesSerialize(dealt.value.0, codec) then
          r.Success? && IsKeyGenerationOf(r.value, dealt.value.0, dealt.value.1, codec)
        else
          r == Failure(ConfigurationError.UnknownError)
  {
    var identifiers := participants.identifiers;
    if configuration.maxSigners as int != |identifiers| {
      return Failure(ConfigurationError.InvalidMaxSigners);
    }

    var customIdentifiers: seq<Identifier> := [];
    for i := 0 to |identifiers|
      invariant |customIdentifiers| == i
      invariant forall j :: 0 <= j < i ==> IntoIdentifier(identifiers[j], codec) == Success(customIdentifiers[j])
    {
      var identifier := IntoIdentifier(identifiers[i], codec);
      if identifier.Failure? {
        return Failure(ConfigurationError.InvalidIdentifier);
      }
      customIdentifiers := customIdentifiers + [identifier.value];
    }
    assert customIdentifiers == ConvertIdentifiers(identifiers, codec).value;

    var dealt := dealer(configuration, customIdentifiers);
    if dealt.Failure? {
      return Failure(KeygenError(dealt.error));
    }
    var (shares, pubkey) := dealt.value;

    var lowered := FromPublicKeyPackage(pubkey, codec);
    if lowered.Failure? {
      return Failure(ConfigurationError.UnknownError);
    }

    var hashMap: map<ParticipantIdentifier, FrostSecretKeyShare> := map[];
    var remaining := shares.Keys;
    while remaining != {}
      invariant remaining <= shares.Keys
      invariant forall id :: id in shares && id !in remaining ==>
        FromIdentifier(id) in hashMap && FromSecretShare(shares[id], codec) == Success(hashMap[FromIdentifier(id)])
      invariant forall p :: p in hashMap ==> Identifier(p.data) in shares && Identifier(p.data) !in remaining
      invariant |hashMap| + |remaining| == |shares|
      decreases remaining
    {
      var id :| id in remaining;
      var share := FromSecretShare(shares[id], codec);
      if share.Failure? {
        return Failure(ConfigurationError.UnknownError);
      }
      assert FromIdentifier(id) !in hashMap;
      hashMap := hashMap[FromIdentifier(id) := share.value];
      remaining := remaining - {id};
    }
    r := Success(TrustedKeyGeneration(hashMap, lowered.value));
  }
}
