/** The values the Swift package passes around: the records of the generated
    FrostSwiftFFI bindings, as Swift sees them, and the FrostSwift structs that
    wrap them. Cryptographic payloads are opaque bytes. */
module SwiftTypes {
  import opened Wrappers
  import opened MachineInts
  import FrostMobileSdk

  // ---------------------------------------------------------------------------
  // FrostSwiftFFI records

  /** The bindings carry a participant identifier as a string. */
  datatype ParticipantIdentifier = ParticipantIdentifier(data: string)

  datatype FrostSigningCommitments = FrostSigningCommitments(identifier: ParticipantIdentifier, data: seq<byte>)

  datatype FrostSignatureShare = FrostSignatureShare(data: seq<byte>)

  datatype FrostSigningPackage = FrostSigningPackage(data: seq<byte>)

  datatype FrostRandomizer = FrostRandomizer(data: seq<byte>)

  datatype FrostSignature = FrostSignature(data: seq<byte>)

  datatype FrostKeyPackage = FrostKeyPackage(identifier: string, data: seq<byte>)

  datatype FrostSecretKeyShare = FrostSecretKeyShare(identifier: ParticipantIdentifier, data: seq<byte>)

  datatype FrostPublicKeyPackage = FrostPublicKeyPackage(
    verifyingShares: map<ParticipantIdentifier, string>,
    verifyingKey: string)

  datatype TrustedKeyGeneration = TrustedKeyGeneration(
    secretShares: map<ParticipantIdentifier, FrostSecretKeyShare>,
    publicKeyPackage: FrostPublicKeyPackage)

  /** The bindings' configuration is the SDK's own record. */
  type FfiConfiguration = FrostMobileSdk.Configuration

  /** The errors the coordination functions of the bindings throw. */
  datatype CoordinationError =
    | FailedToCreateSigningPackage
    | InvalidSigningCommitment
    | IdentifierDeserializationError
    | SigningPackageSerializationError
    | SignatureShareDeserializationError
    | PublicKeyPackageDeserializationError
    | SignatureShareAggregationFailed(message: string)
    | InvalidRandomizer

  /** The `FrostError` cases the coordinators throw. */
  datatype FrostError = InvalidConfiguration | InvalidSignature | MalformedIdentifier

  // ---------------------------------------------------------------------------
  // FrostSwift values

  datatype Identifier = Identifier(id: ParticipantIdentifier)

  /** Threshold parameters; the dealer secret is optional on the Swift side. */
  datatype Configuration = Configuration(maxSigners: u16, minSigners: u16, secret: Option<seq<byte>>)

  datatype Message = Message(data: seq<byte>)

  datatype PublicKeyPackage = PublicKeyPackage(package: FrostPublicKeyPackage)

  datatype KeyPackage = KeyPackage(package: FrostKeyPackage)

  datatype SecretShare = SecretShare(share: FrostSecretKeyShare)

  datatype KeyGeneration = KeyGeneration(publicKeyPackage: PublicKeyPackage, secretShares: map<Identifier, SecretShare>)

  datatype SigningCommitments = SigningCommitments(identifier: Identifier, commitment: FrostSigningCommitments)

  datatype SignatureShare = SignatureShare(identifier: Identifier, share: FrostSignatureShare)

  datatype SigningPackage = SigningPackage(package: FrostSigningPackage)

  datatype RandomizedParams = RandomizedParams(data: seq<byte>)

  datatype Randomizer = Randomizer(randomizer: FrostRandomizer)

  /** What the coordinator hands every signer for round 2. */
  datatype Round2Configuration = Round2Configuration(signingPackage: SigningPackage, randomizer: Option<Randomizer>)

  datatype Signature = Signature(signature: FrostSignature)
}
