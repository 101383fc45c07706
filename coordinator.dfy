/** The signing-session coordinators of the Swift package
    (FrostSwift/Sources/FrostSwift/Coordinator.swift). The Swift actor
    serializes every call, so a coordinator is a sequential object here; the
    cryptographic calls are the functions of a `CryptoEngine`. */
module Coordinator {
  import opened Wrappers
  import opened MachineInts
  import opened SwiftTypes

  /** `FROSTCoordinatorError`. `found` is the commitment count (see
      `ValidateNumberOfCommitments`). */
  datatype FrostCoordinatorError =
    | AlreadyReceivedCommitmentFromIdentifier(identifier: Identifier)
    | AlreadyReceivedSignatureShareFromIdentifier(identifier: Identifier)
    | IncorrectNumberOfCommitments(min: u16, max: u16, found: nat)
    | SigningPackageAlreadyCreated
    | SigningPackageMissing
    | FailedToCreateSigningPackage
    | InvalidSigningCommitment
    | IdentifierDeserializationError
    | SigningPackageSerializationError
    | SignatureShareDeserializationError
    | PublicKeyPackageDeserializationError
    | SignatureShareAggregationFailed(message: string)
    | InvalidRandomizer
    | OtherError(cause: CoordinationError)

  /** What a Swift `throws` can deliver to a caller of the coordinators. The
      bindings' errors reach the caller unmapped. */
  datatype SwiftError =
    | CoordinatorError(coordinator: FrostCoordinatorError)
    | FfiError(coordination: CoordinationError)
    | FrostSwiftError(frost: FrostError)
    | OtherSwiftError(description: string)

  /** `FROSTCoordinatorError.init(coordinationError:)`: every case of the
      bindings' error has a Swift case of its own, so the catch-all
      `otherError` is never produced and nothing is lost. */
  function FromCoordinationError(e: CoordinationError): (r: FrostCoordinatorError)
    ensures !r.OtherError?
    ensures CoordinationErrorOf(r) == Some(e)
  {
    match e
    case FailedToCreateSigningPackage => FrostCoordinatorError.FailedToCreateSigningPackage
    case InvalidSigningCommitment => FrostCoordinatorError.InvalidSigningCommitment
    case IdentifierDeserializationError => FrostCoordinatorError.IdentifierDeserializationError
    case SigningPackageSerializationError => FrostCoordinatorError.SigningPackageSerializationError
    case SignatureShareDeserializationError => FrostCoordinatorError.SignatureShareDeserializationError
    case PublicKeyPackageDeserializationError => FrostCoordinatorError.PublicKeyPackageDeserializationError
    case SignatureShareAggregationFailed(message) => FrostCoordinatorError.SignatureShareAggregationFailed(message)
    case InvalidRandomizer => FrostCoordinatorError.InvalidRandomizer
  }

  /** The bindings' error a Swift case mirrors, if it mirrors one by name; the
      reference against which `FromCoordinationError` is checked. */
  function CoordinationErrorOf(r: FrostCoordinatorError): Option<CoordinationError>
  {
    match r
    case FailedToCreateSigningPackage => Some(CoordinationError.FailedToCreateSigningPackage)
    case InvalidSigningCommitment => Some(CoordinationError.InvalidSigningCommitment)
    case IdentifierDeserializationError => Some(CoordinationError.IdentifierDeserializationError)
    case SigningPackageSerializationError => Some(CoordinationError.SigningPackageSerializationError)
    case SignatureShareDeserializationError => Some(CoordinationError.SignatureShareDeserializationError)
    case PublicKeyPackageDeserializationError => Some(CoordinationError.PublicKeyPackageDeserializationError)
    case SignatureShareAggregationFailed(message) => Some(CoordinationError.SignatureShareAggregationFailed(message))
    case InvalidRandomizer => Some(CoordinationError.InvalidRandomizer)
    case _ => None
  }

  /** Distinct errors of the bindings map to distinct Swift errors. */
  lemma FromCoordinationErrorInjective(a: CoordinationError, b: CoordinationError)
    requires FromCoordinationError(a) == FromCoordinationError(b)
    ensures a == b
  {
    assert Some(a) == CoordinationErrorOf(FromCoordinationError(a));
  }

  /** What a call into the bindings can throw: one of their own errors, or a
      failure the Swift runtime describes. FrostSwift's own errors (the
      coordinator's guards and `FrostError`) never come from the bindings. */
  type BindingError = e: SwiftError | e.FfiError? || e.OtherSwiftError? witness OtherSwiftError("")

  /** The cryptographic calls of the bindings: `newSigningPackage`,
      `RandomizedParams(publicKey:signingPackage:)`, `randomizer()` and
      `aggregate`. Each may throw. */
  datatype CryptoEngine = CryptoEngine(
    newSigningPackage: (Message, seq<FrostSigningCommitments>) -> Result<FrostSigningPackage, BindingError>,
    randomizedParams: (PublicKeyPackage, SigningPackage) -> Result<RandomizedParams, BindingError>,
    randomizer: RandomizedParams -> Result<Randomizer, BindingError>,
    aggregate: (FrostSigningPackage, seq<FrostSignatureShare>, FrostPublicKeyPackage, FrostRandomizer) -> Result<FrostSignature, BindingError>)

  // ---------------------------------------------------------------------------
  // Dictionary iteration

  /** `keys` lists every key of `m` exactly once, in some order. */
  ghost predicate Enumerates<K, V>(keys: seq<K>, m: map<K, V>)
  {
    && |keys| == |m|
    && (forall i :: 0 <= i < |keys| ==> keys[i] in m)
    && (forall k :: k in m ==> k in keys)
    && (forall i, j :: 0 <= i < j < |keys| ==> keys[i] != keys[j])
  }

  /** The values of `m` under `keys`, in that order. */
  function ValuesAt<K, V>(m: map<K, V>, keys: seq<K>): (vs: seq<V>)
    requires forall i :: 0 <= i < |keys| ==> keys[i] in m
    ensures |vs| == |keys|
  {
    seq(|keys|, i requires 0 <= i < |keys| => m[keys[i]])
  }

  /** The order in which a dictionary yields its entries: unspecified, so
      chosen freely here. */
  method Enumerate<K, V>(m: map<K, V>) returns (keys: seq<K>)
    ensures Enumerates(keys, m)
  {
    keys := [];
    var remaining := m.Keys;
    while remaining != {}
      invariant remaining <= m.Keys
      invariant forall i :: 0 <= i < |keys| ==> keys[i] in m && keys[i] !in remaining
      invariant forall k :: k in m ==> k in remaining || k in keys
      invariant forall i, j :: 0 <= i < j < |keys| ==> keys[i] != keys[j]
      invariant |keys| + |remaining| == |m|
      decreases remaining
    {
      var k :| k in remaining;
      keys := keys + [k];
      remaining := remaining - {k};
    }
  }

  /** Nothing is dropped: every stored value is among those listed, and as
      many are listed as there are entries. */
  lemma {:induction false} EnumeratedValues<K, V>(m: map<K, V>, keys: seq<K>, k: K)
    requires Enumerates(keys, m) && k in m
    ensures |ValuesAt(m, keys)| == |m|
    ensures m[k] in ValuesAt(m, keys)
  {
    var i :| 0 <= i < |keys| && keys[i] == k;
    assert ValuesAt(m, keys)[i] == m[k];
  }

  /** `commitments.values.map { $0.commitment }`: one payload per stored
      commitment, in the same order, none dropped. */
  function CommitmentPayloads(values: seq<SigningCommitments>): (payloads: seq<FrostSigningCommitments>)
    ensures |payloads| == |values|
    ensures forall i :: 0 <= i < |values| ==> payloads[i] == values[i].commitment
    ensures forall c :: c in values ==> c.commitment in payloads
    ensures forall x :: x in payloads ==> exists c :: c in values && c.commitment == x
  {
    var payloads := seq(|values|, i requires 0 <= i < |values| => values[i].commitment);
    assert forall i :: 0 <= i < |values| ==> values[i].commitment in payloads by {
      forall i | 0 <= i < |values| ensures values[i].commitment in payloads {
        assert payloads[i] == values[i].commitment;
      }
    }
    payloads
  }

  /** `signatureShares.values.map { $0.share }`: one payload per stored share,
      in the same order, none dropped. */
  function SharePayloads(values: seq<SignatureShare>): (payloads: seq<FrostSignatureShare>)
    ensures |payloads| == |values|
    ensures forall i :: 0 <= i < |values| ==> payloads[i] == values[i].share
    ensures forall s :: s in values ==> s.share in payloads
    ensures forall x :: x in payloads ==> exists s :: s in values && s.share == x
  {
    var payloads := seq(|values|, i requires 0 <= i < |values| => values[i].share);
    assert forall i :: 0 <= i < |values| ==> values[i].share in payloads by {
      forall i | 0 <= i < |values| ensures values[i].share in payloads {
        assert payloads[i] == values[i].share;
      }
    }
    payloads
  }

  /** No participant contributes two of these commitments. */
  predicate DistinctSenders(values: seq<SigningCommitments>)
  {
    forall i, j :: 0 <= i < j < |values| ==> values[i].identifier != values[j].identifier
  }

  /** No participant contributes two of these signature shares. */
  predicate DistinctShareSenders(values: seq<SignatureShare>)
  {
    forall i, j :: 0 <= i < j < |values| ==> values[i].identifier != values[j].identifier
  }

  // ---------------------------------------------------------------------------
  // The cryptographic steps

  /** The cryptographic part of `createSigningPackage`: build the package,
      derive the randomized parameters, derive the randomizer. The first call
      that throws decides the error, which is always the bindings' own; when
      all three succeed the configuration pairs the package with the
      randomizer. */
  function Round2For(engine: CryptoEngine, message: Message, publicKeyPackage: PublicKeyPackage, commitments: seq<FrostSigningCommitments>)
    : (r: Result<Round2Configuration, SwiftError>)
    ensures r.Failure? ==> r.error.FfiError? || r.error.OtherSwiftError?
    ensures engine.newSigningPackage(message, commitments).Failure? ==>
      r == Failure(engine.newSigningPackage(message, commitments).error)
    ensures engine.newSigningPackage(message, commitments).Success? ==>
      var package := SigningPackage(engine.newSigningPackage(message, commitments).value);
      && (engine.randomizedParams(publicKeyPackage, package).Failure? ==>
            r == Failure(engine.randomizedParams(publicKeyPackage, package).error))
      && (engine.randomizedParams(publicKeyPackage, package).Success? ==>
            && (engine.randomizer(engine.randomizedParams(publicKeyPackage, package).value).Failure? ==>
                  r == Failure(engine.randomizer(engine.randomizedParams(publicKeyPackage, package).value).error))
            && (engine.randomizer(engine.randomizedParams(publicKeyPackage, package).value).Success? ==>
                  r == Success(Round2Configuration(package, Some(engine.randomizer(engine.randomizedParams(publicKeyPackage, package).value).value)))))
    ensures r.Success? ==> r.value.randomizer.Some?
  {
    var package :- engine.newSigningPackage(message, commitments);
    var signingPackage := SigningPackage(package);
    var params :- engine.randomizedParams(publicKeyPackage, signingPackage);
    var randomizer :- engine.randomizer(params);
    Success(Round2Configuration(signingPackage, Some(randomizer)))
  }

  /** The cryptographic part of `aggregate`: the bindings' signature, or the
      error they throw, re-thrown as it is. */
  function Aggregated(engine: CryptoEngine, signingPackage: SigningPackage, shares: seq<FrostSignatureShare>,
                      publicKeyPackage: PublicKeyPackage, randomizer: Randomizer): (r: Result<Signature, SwiftError>)
    ensures r.Success? <==> engine.aggregate(signingPackage.package, shares, publicKeyPackage.package, randomizer.randomizer).Success?
    ensures r.Success? ==>
      Success(r.value.signature) == engine.aggregate(signingPackage.package, shares, publicKeyPackage.package, randomizer.randomizer)
    ensures r.Failure? ==>
      r.error == engine.aggregate(signingPackage.package, shares, publicKeyPackage.package, randomizer.randomizer).error
  {
    var signature :- engine.aggregate(signingPackage.package, shares, publicKeyPackage.package, randomizer.randomizer);
    Success(Signature(signature))
  }

  // ---------------------------------------------------------------------------
  // NonSigningCoordinator

  /** A coordinator that collects contributions but does not sign. */
  class NonSigningCoordinator {
    const configuration: Configuration
    const publicKeyPackage: PublicKeyPackage
    const message: Message
    var round2Config: Option<Round2Configuration>
    var commitments: map<Identifier, SigningCommitments>
    var signatureShares: map<Identifier, SignatureShare>

    /** Every contribution is stored under its sender's identifier, and a
        round-2 configuration, once made, carries a randomizer. */
    ghost predicate Valid()
      reads this
    {
      && (forall id :: id in commitments ==> commitments[id].identifier == id)
      && (forall id :: id in signatureShares ==> signatureShares[id].identifier == id)
      && (round2Config.Some? ==> round2Config.value.randomizer.Some?)
    }

    /** `init(configuration:publicKeyPackage:message:)`: declared `throws`, but
        never throws. */
    constructor (configuration: Configuration, publicKeyPackage: PublicKeyPackage, message: Message)
      ensures Valid()
      ensures this.configuration == configuration && this.publicKeyPackage == publicKeyPackage && this.message == message
      ensures round2Config == None && commitments == map[] && signatureShares == map[]
    {
      this.configuration := configuration;
      this.publicKeyPackage := publicKeyPackage;
      this.message := message;
      round2Config := None;
      commitments := map[];
      signatureShares := map[];
    }

    /** `validateNumberOfCommitments`: the commitment count must lie within the
        configured signer bounds. */
    function ValidateNumberOfCommitments(): (r: Outcome<SwiftError>)
      reads this
      ensures r == Pass <==> configuration.minSigners as int <= |commitments| <= configuration.maxSigners as int
      ensures r != Pass ==>
        r == Fail(CoordinatorError(IncorrectNumberOfCommitments(configuration.minSigners, configuration.maxSigners, |commitments|)))
    {
      if configuration.minSigners as int <= |commitments| <= configuration.maxSigners as int then
        Pass
      else
        Fail(CoordinatorError(IncorrectNumberOfCommitments(configuration.minSigners, configuration.maxSigners, |commitments|)))
    }

    /** `round2ConfigPresent`: the stored round-2 configuration, or
        `signingPackageMissing`. */
    function Round2ConfigPresent(): (r: Result<Round2Configuration, SwiftError>)
      reads this
      ensures r.Success? <==> round2Config.Some?
      ensures r.Success? ==> round2Config == Some(r.value)
      ensures r.Failure? ==> r.error == CoordinatorError(SigningPackageMissing)
    {
      match round2Config
      case Some(config) => Success(config)
      case None => Failure(CoordinatorError(SigningPackageMissing))
    }

    /** `receive(commitment:)`: the first commitment from an identifier is
        stored; any later one, equal or not, is rejected and the first stays. */
    method ReceiveCommitment(commitment: SigningCommitments) returns (r: Outcome<SwiftError>)
      requires Valid()
      modifies this`commitments
      ensures Valid()
      ensures r == Pass <==> commitment.identifier !in old(commitments)
      ensures r != Pass ==> r == Fail(CoordinatorError(AlreadyReceivedCommitmentFromIdentifier(commitment.identifier)))
      ensures commitments == if r == Pass then old(commitments)[commitment.identifier := commitment] else old(commitments)
      ensures signatureShares == old(signatureShares) && round2Config == old(round2Config)
    {
      if commitment.identifier in commitments {
        return Fail(CoordinatorError(AlreadyReceivedCommitmentFromIdentifier(commitment.identifier)));
      }
      commitments := commitments[commitment.identifier := commitment];
      r := Pass;
    }

    /** `createSigningPackage`: at most once, only within the signer bounds;
        the configuration is stored only when every cryptographic step
        succeeds, so a failure changes nothing. */
    method CreateSigningPackage(engine: CryptoEngine) returns (r: Result<Round2Configuration, SwiftError>, ghost order: seq<Identifier>)
      requires Valid()
      modifies this`round2Config
      ensures Valid()
      ensures old(round2Config).Some? ==> r == Failure(CoordinatorError(SigningPackageAlreadyCreated))
      ensures old(round2Config).None? && ValidateNumberOfCommitments().Fail? ==> r == Failure(ValidateNumberOfCommitments().error)
      ensures old(round2Config).None? && ValidateNumberOfCommitments() == Pass ==>
        && Enumerates(order, commitments)
        && r == Round2For(engine, message, publicKeyPackage, CommitmentPayloads(ValuesAt(commitments, order)))
        && DistinctSenders(ValuesAt(commitments, order))
      ensures r == Failure(CoordinatorError(SigningPackageAlreadyCreated)) <==> old(round2Config).Some?
      ensures r.Failure? && r.error.CoordinatorError? ==> old(round2Config).Some? || ValidateNumberOfCommitments().Fail?
      ensures r.Success? ==> r.value.randomizer.Some?
      ensures round2Config == if r.Success? then Some(r.value) else old(round2Config)
      ensures commitments == old(commitments) && signatureShares == old(signatureShares)
    {
      order := [];
      if round2Config.Some? {
        return Failure(CoordinatorError(SigningPackageAlreadyCreated)), order;
      }
      var quorum := ValidateNumberOfCommitments();
      if quorum.Fail? {
        return Failure(quorum.error), order;
      }
      var keys := Enumerate(commitments);
      order := keys;
      var payloads := CommitmentPayloads(ValuesAt(commitments, keys));
      r := Round2For(engine, message, publicKeyPackage, payloads);
      if r.Success? {
        round2Config := Some(r.value);
      }
    }

    /** `receive(signatureShare:)`: the first share from an identifier is
        stored, a repeat is rejected. Whether that identifier sent a commitment
        is not checked. */
    method ReceiveSignatureShare(signatureShare: SignatureShare) returns (r: Outcome<SwiftError>)
      requires Valid()
      modifies this`signatureShares
      ensures Valid()
      ensures r == Pass <==> signatureShare.identifier !in old(signatureShares)
      ensures r != Pass ==> r == Fail(CoordinatorError(AlreadyReceivedSignatureShareFromIdentifier(signatureShare.identifier)))
      ensures signatureShares == if r == Pass then old(signatureShares)[signatureShare.identifier := signatureShare] else old(signatureShares)
      ensures commitments == old(commitments) && round2Config == old(round2Config)
    {
      if signatureShare.identifier in signatureShares {
        return Fail(CoordinatorError(AlreadyReceivedSignatureShareFromIdentifier(signatureShare.identifier)));
      }
      signatureShares := signatureShares[signatureShare.identifier := signatureShare];
      r := Pass;
    }

    /** `aggregate`: changes nothing. It re-checks the signer bounds, then needs
        the round-2 configuration, then its randomizer, and only then calls the
        engine with every stored share. */
    method Aggregate(engine: CryptoEngine) returns (r: Result<Signature, SwiftError>, ghost order: seq<Identifier>)
      ensures ValidateNumberOfCommitments().Fail? ==> r == Failure(ValidateNumberOfCommitments().error)
      ensures ValidateNumberOfCommitments() == Pass && round2Config.None? ==>
        r == Failure(CoordinatorError(SigningPackageMissing))
      ensures ValidateNumberOfCommitments() == Pass && round2Config.Some? && round2Config.value.randomizer.None? ==>
        r == Failure(CoordinatorError(FrostCoordinatorError.InvalidRandomizer))
      ensures ValidateNumberOfCommitments() == Pass && round2Config.Some? && round2Config.value.randomizer.Some? ==>
        && Enumerates(order, signatureShares)
        && r == Aggregated(engine, round2Config.value.signingPackage, SharePayloads(ValuesAt(signatureShares, order)),
                           publicKeyPackage, round2Config.value.randomizer.value)
      ensures Valid() && ValidateNumberOfCommitments() == Pass && round2Config.Some? ==>
        && r == Aggregated(engine, round2Config.value.signingPackage, SharePayloads(ValuesAt(signatureShares, order)),
                           publicKeyPackage, round2Config.value.randomizer.value)
        && DistinctShareSenders(ValuesAt(signatureShares, order))
      ensures r == Failure(CoordinatorError(SigningPackageMissing)) <==> ValidateNumberOfCommitments() == Pass && round2Config.None?
      ensures r.Failure? && r.error.CoordinatorError? ==>
        ValidateNumberOfCommitments().Fail? || round2Config.None? || round2Config.value.randomizer.None?
    {
      order := [];
      var quorum := ValidateNumberOfCommitments();
      if quorum.Fail? {
        return Failure(quorum.error), order;
      }
      var present := Round2ConfigPresent();
      if present.Failure? {
        return Failure(present.error), order;
      }
      var round2config := present.value;
      if round2config.randomizer.None? {
        return Failure(CoordinatorError(FrostCoordinatorError.InvalidRandomizer)), order;
      }
      var keys := Enumerate(signatureShares);
      order := keys;
      r := Aggregated(engine, round2config.signingPackage, SharePayloads(ValuesAt(signatureShares, keys)),
                      publicKeyPackage, round2config.randomizer.value);
    }

    /** `verify(signature:)`: always throws `invalidSignature`. */
    function Verify(signature: Signature): (r: Outcome<SwiftError>)
      ensures r.Fail? && r.error == FrostSwiftError(InvalidSignature)
    {
      Fail(FrostSwiftError(InvalidSignature))
    }
  }

  // ---------------------------------------------------------------------------
  // SigningCoordinator

  /** A coordinator that would also sign; every operation throws. */
  class SigningCoordinator {
    const configuration: Configuration
    const publicKeyPackage: PublicKeyPackage
    const message: Message
    const keyPackage: KeyPackage
    var round2Config: Option<Round2Configuration>
    var commitments: map<Identifier, SigningCommitments>
    var signatureShares: map<Identifier, SignatureShare>

    constructor (configuration: Configuration, publicKeyPackage: PublicKeyPackage, keyPackage: KeyPackage, message: Message)
      ensures this.configuration == configuration && this.publicKeyPackage == publicKeyPackage
      ensures this.keyPackage == keyPackage && this.message == message
      ensures round2Config == None && commitments == map[] && signatureShares == map[]
    {
      this.configuration := configuration;
      this.publicKeyPackage := publicKeyPackage;
      this.message := message;
      this.keyPackage := keyPackage;
      round2Config := None;
      commitments := map[];
      signatureShares := map[];
    }

    function ReceiveCommitment(commitment: SigningCommitments): (r: Outcome<SwiftError>)
      ensures r.Fail? && r.error == FrostSwiftError(MalformedIdentifier)
    {
      Fail(FrostSwiftError(MalformedIdentifier))
    }

    function CreateSigningPackage(): (r: Result<Round2Configuration, SwiftError>)
      ensures r.Failure? && r.error == CoordinatorError(SigningPackageAlreadyCreated)
    {
      Failure(CoordinatorError(SigningPackageAlreadyCreated))
    }

    function ReceiveSignatureShare(signatureShare: SignatureShare): (r: Outcome<SwiftError>)
      ensures r.Fail? && r.error == FrostSwiftError(MalformedIdentifier)
    {
      Fail(FrostSwiftError(MalformedIdentifier))
    }

    function Aggregate(): (r: Result<Signature, SwiftError>)
      ensures r.Failure? && r.error == FrostSwiftError(InvalidConfiguration)
    {
      Failure(FrostSwiftError(InvalidConfiguration))
    }

    function Verify(signature: Signature): (r: Outcome<SwiftError>)
      ensures r.Fail? && r.error == FrostSwiftError(InvalidSignature)
    {
      Fail(FrostSwiftError(InvalidSignature))
    }
  }

  // ---------------------------------------------------------------------------
  // A session

  /** The 2-of-3 session of the trusted-dealer integration test as a caller
      sees it through the contracts above: the first participant drops out,
      the other two commit and sign. Four probes are added here that the test
      does not make: asking for the package too early, repeating a commitment,
      aggregating before the package exists and asking for the package twice. */
  method TwoOfThreeSession(engine: CryptoEngine, publicKeyPackage: PublicKeyPackage, message: Message,
                           c2: SigningCommitments, c3: SigningCommitments, c3Again: SigningCommitments,
                           s2: SignatureShare, s3: SignatureShare)
    returns (early: Result<Round2Configuration, SwiftError>, repeated: Outcome<SwiftError>,
             missing: Result<Signature, SwiftError>, round2: Result<Round2Configuration, SwiftError>,
             twice: Result<Round2Configuration, SwiftError>, signature: Result<Signature, SwiftError>,
             ghost shareOrder: seq<Identifier>)
    requires c2.identifier != c3.identifier && c3Again.identifier == c3.identifier
    requires s2.identifier != s3.identifier
    ensures early == Failure(CoordinatorError(IncorrectNumberOfCommitments(2, 3, 1)))
    ensures repeated == Fail(CoordinatorError(AlreadyReceivedCommitmentFromIdentifier(c3.identifier)))
    ensures missing == Failure(CoordinatorError(SigningPackageMissing))
    ensures round2.Failure? ==> round2.error.FfiError? || round2.error.OtherSwiftError?
    ensures round2.Success? ==>
      && round2.value.randomizer.Some?
      && twice == Failure(CoordinatorError(SigningPackageAlreadyCreated))
      && Enumerates(shareOrder, map[s2.identifier := s2, s3.identifier := s3])
      && signature == Aggregated(engine, round2.value.signingPackage,
                                 SharePayloads(ValuesAt(map[s2.identifier := s2, s3.identifier := s3], shareOrder)),
                                 publicKeyPackage, round2.value.randomizer.value)
  {
    var configuration := Configuration(3, 2, None);
    var coordinator := new NonSigningCoordinator(configuration, publicKeyPackage, message);
    ghost var order: seq<Identifier>;

    var received2 := coordinator.ReceiveCommitment(c2);
    early, order := coordinator.CreateSigningPackage(engine);

    var received3 := coordinator.ReceiveCommitment(c3);
    repeated := coordinator.ReceiveCommitment(c3Again);
    assert coordinator.commitments.Keys == {c2.identifier, c3.identifier};

    missing, order := coordinator.Aggregate(engine);
    round2, order := coordinator.CreateSigningPackage(engine);
    twice, order := coordinator.CreateSigningPackage(engine);

    var accepted2 := coordinator.ReceiveSignatureShare(s2);
    var accepted3 := coordinator.ReceiveSignatureShare(s3);
    assert coordinator.signatureShares == map[s2.identifier := s2, s3.identifier := s3];
    signature, shareOrder := coordinator.Aggregate(engine);
  }
}
