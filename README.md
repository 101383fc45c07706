# FROST signing coordinator — Dafny model

This project models the coordination layer of a FROST threshold-signature SDK. That layer has two parts. The Swift package drives a two-round signing session. The Rust SDK underneath validates threshold parameters and converts key material between the FROST crate and FFI records. Elliptic-curve arithmetic is not modelled.

Modules:

- `Wrappers`, `MachineInts` (`wrappers.dfy`): `Option`, `Result` and `Outcome`, plus the source's `u16` and byte types.
- `FrostMobileSdk` (`frost_mobile_sdk.dfy`): `frost-mobile-sdk/src/lib.rs`. It covers `validate_config`, the re-mapping of dealer errors, the 32-byte identifier prefix, `to_secret_share`, both public-key-package conversions and `trusted_dealer_keygen_with_identifiers`.
  - Crate values (`Identifier`, `VerifyingShare`, `VerifyingKey`) are represented by their canonical encodings.
  - Deserializers, secret-share serialization, hex and the dealer with its random number generator are function-valued parameters. Each of them may fail, except hex encoding, which is total as `hex::encode` is.
- `SwiftTypes` (`swift_types.dfy`): the records of the FrostSwiftFFI bindings as Swift sees them, and the FrostSwift structs that wrap them.
- `FfiConversion` (`ffi_conversion.dfy`): `FrostSwift/Sources/FrostSwift/FFIConversion.swift`.
- `Coordinator` (`coordinator.dfy`): `FrostSwift/Sources/FrostSwift/Coordinator.swift`.
  - The error mapping.
  - `NonSigningCoordinator` as a class. Its fields `commitments`, `signatureShares` and `round2Config` are updated in place under a `Valid()` invariant.
  - The stub `SigningCoordinator`.
  - `CryptoEngine`, which stands for the cryptographic calls.
  - `TwoOfThreeSession`: a client method that replays the integration test's 2-of-3 session through the contracts. It adds four probes that the test itself does not make: the quorum rejection, the rejected duplicate, `signingPackageMissing` before the package exists and the write-once package.

Swift dictionary and Rust `HashMap` iteration order is unspecified. Loops over them pick the next key freely (`:|`). The coordinator methods return the order they used as a ghost out-parameter, so their contracts can name the exact sequence handed to the engine.

The model follows the code in these places:

- Coordinator.swift never calls `init(coordinationError:)`. Errors thrown by the bindings reach the caller unmapped. The engine's error type, `BindingError`, admits only `SwiftError.FfiError` (a `CoordinationError`) and `SwiftError.OtherSwiftError`. So the coordinator's own errors (`signingPackageAlreadyCreated`, `incorrectNumberOfCommitments`, `signingPackageMissing`, `invalidRandomizer`) can only come from its guards, and the contracts state that direction too.
- Duplicates raise two different errors, `alreadyReceivedCommitmentFromIdentifier` and `alreadyReceivedSignatureShareFromIdentifier`.
- `verify` throws unconditionally.
- `from_identifier` cannot fail, so `from_public_key_package` always returns `Ok`.
- A commitment is still accepted after the signing package exists. `aggregate` therefore re-checks the signer bounds.
- `into_public_key_package` can merge two entries whose participant identifiers agree on their first 32 bytes. In that case, which share survives depends on iteration order. `IntoPublicKeyPackage` states this, and `RaisingWithoutCollisions` gives the exact result when no such collision exists.

## Model

| member | source | states |
|---|---|---|
| `FrostMobileSdk.OrError` | frost-mobile-sdk/src/lib.rs:70-71 | A `map_err` whose closure ignores its argument: succeeds iff the call does, with its value. Otherwise the error is exactly `e`, and the call's own error is discarded. |
| `FrostMobileSdk.ValidateConfig` | frost-mobile-sdk/src/lib.rs:193-208 | Passes iff 2 <= min <= max. min < 2 gives InvalidMinSigners even when max < 2. Otherwise max < 2 gives InvalidMaxSigners. Otherwise min > max gives InvalidMinSigners. |
| `FrostMobileSdk.KeygenError` | frost-mobile-sdk/src/lib.rs:275-279 | InvalidMaxSigners and InvalidMinSigners keep their meaning (both directions). Every other crate error becomes UnknownError. |
| `FrostMobileSdk.TrustedDealerKeygenFrom` | frost-mobile-sdk/src/lib.rs:239-254 | Succeeds iff the dealer does, with the dealer's records. A dealer error is re-mapped by KeygenError and is never InvalidIdentifier. |
| `FrostMobileSdk.Take32AsWritten` | frost-mobile-sdk/src/lib.rs:133-134 | As written: panics exactly when fewer than 32 bytes are present. Otherwise it always returns a 32-byte success, so its `map_err` never fires. |
| `FrostMobileSdk.Take32` | frost-mobile-sdk/src/lib.rs:146-147 | Succeeds iff there are at least 32 bytes, with exactly the first 32. Otherwise DeserializationError. Agrees with the as-written code wherever that does not panic. |
| `FrostMobileSdk.IntoIdentifierAsWritten` | frost-mobile-sdk/src/lib.rs:47-52 | As written: panics exactly when the identifier has fewer than 32 bytes. |
| `FrostMobileSdk.IntoIdentifier` | frost-mobile-sdk/src/lib.rs:47-52 | Short data gives DeserializationError. Otherwise the result is the crate's deserialization of bytes [0..32). Agrees with the as-written code wherever that does not panic. |
| `FrostMobileSdk.IntoIdentifierReadsPrefix` | frost-mobile-sdk/src/lib.rs:48 | Two identifiers with the same first 32 bytes convert to the same result. Later bytes are never read. |
| `FrostMobileSdk.ShortIdentifierPanicsAsWritten` | frost-mobile-sdk/src/lib.rs:48-49 | For every identifier shorter than 32 bytes, the code as written panics, while the corrected conversion returns DeserializationError. |
| `FrostMobileSdk.FromIdentifier` | frost-mobile-sdk/src/lib.rs:39-45 | The FFI identifier carries exactly the identifier's canonical encoding. It cannot fail. |
| `FrostMobileSdk.FromIdentifierInjective` | frost-mobile-sdk/src/lib.rs:42 | Distinct identifiers get distinct FFI identifiers. |
| `FrostMobileSdk.FromIdentifierRoundTrip` | frost-mobile-sdk/src/lib.rs:39-52 | from_identifier followed by into_identifier returns the original identifier whenever its 32-byte encoding deserializes to it. |
| `FrostMobileSdk.ToSecretShare` | frost-mobile-sdk/src/lib.rs:81-92 | Errors come in order: the identifier error, then SerializationError, then UnknownIdentifier. Once both values decode, UnknownIdentifier is returned iff the wrapper's identifier differs from the share's. When both decode and the identifiers agree, the result is exactly the decoded share. On success it belongs to the wrapper's identifier. |
| `FrostMobileSdk.FromSecretShare` | frost-mobile-sdk/src/lib.rs:68-79 | Succeeds iff the share serializes, and the result is keyed by the share's own identifier. Otherwise SerializationError. |
| `FrostMobileSdk.FromPublicKeyPackage` | frost-mobile-sdk/src/lib.rs:109-127 | Never fails. There is exactly one hex entry per verifying share, under its converted identifier, and no other entries. The counts are equal, and the key is the hex of the verifying key. |
| `FrostMobileSdk.ConvertVerifyingKey` | frost-mobile-sdk/src/lib.rs:130-137 | Succeeds iff hex decodes, at least 32 bytes are present and the first 32 deserialize. The key is then the deserialization of those 32 bytes. Every failure is DeserializationError, including the deserializer's own. |
| `FrostMobileSdk.ConvertVerifyingShare` | frost-mobile-sdk/src/lib.rs:140-151 | The identifier is converted first, and its error wins. Next, a hex failure gives DeserializationError, and so do fewer than 32 decoded bytes. The share deserializer's own error passes through unmapped, since lib.rs:149 has no `map_err`. On success the entry pairs that identifier with the deserialization of the first 32 decoded bytes. |
| `FrostMobileSdk.IntoPublicKeyPackage` | frost-mobile-sdk/src/lib.rs:129-157 | A key error comes first. Succeeds iff the key and every entry convert, and otherwise returns the error of some failing entry. Every entry's identifier is present, and every stored share comes from an entry with that identifier. There are at most as many entries as the input has, and exactly as many when identifiers do not collide. |
| `FrostMobileSdk.RaisingWithoutCollisions` | frost-mobile-sdk/src/lib.rs:139-152 | Without colliding identifiers, each entry's share is stored under its own identifier. |
| `FrostMobileSdk.ConvertIdentifiers` | frost-mobile-sdk/src/lib.rs:262-268 | Succeeds iff every identifier converts, with the converted list in order. Otherwise InvalidIdentifier. |
| `FrostMobileSdk.TrustedDealerKeygenWithIdentifiers` | frost-mobile-sdk/src/lib.rs:256-301 | A signer-count mismatch gives InvalidMaxSigners before any other work. Next comes InvalidIdentifier, then the re-mapped dealer error, then UnknownError if a share fails to serialize. On success the result is the lowered public key package plus one wrapped share per dealt share, under its FFI identifier, with the count preserved. |
| `FfiConversion.IntoFfiConfiguration` | FrostSwift/Sources/FrostSwift/FFIConversion.swift:12-16 | minSigners and maxSigners are kept exactly. A missing secret becomes empty data, and a present one is passed through. |
| `FfiConversion.IntoFfiConfigurationValidates` | FrostSwift/Sources/FrostSwift/FFIConversion.swift:13-14 | The lowered configuration passes validate_config iff 2 <= min <= max on the Swift side, whatever the secret. |
| `FfiConversion.ToIdentifier` | FrostSwift/Sources/FrostSwift/FFIConversion.swift:18-22 | The Identifier carries the participant identifier's data. |
| `FfiConversion.ToParticipantIdentifier` | FrostSwift/Sources/FrostSwift/FFIConversion.swift:24-28 | The participant identifier carries the Identifier's data. |
| `FfiConversion.ParticipantIdentifierRoundTrip` | FrostSwift/Sources/FrostSwift/FFIConversion.swift:19-27 | toIdentifier followed by toParticipantIdentifier is the identity. |
| `FfiConversion.IdentifierRoundTrip` | FrostSwift/Sources/FrostSwift/FFIConversion.swift:19-27 | toParticipantIdentifier followed by toIdentifier is the identity. |
| `FfiConversion.ToKeyGeneration` | FrostSwift/Sources/FrostSwift/FFIConversion.swift:29-37 | There is one entry per input key, under key.toIdentifier(), wrapping the original share, with no other entries. The count is preserved and the public key package is wrapped unchanged. |
| `Coordinator.FromCoordinationError` | FrostSwift/Sources/FrostSwift/Coordinator.swift:30-49 | Total. Every case maps to its same-named Swift case, and the aggregation message is carried through. It never yields otherError. |
| `Coordinator.FromCoordinationErrorInjective` | FrostSwift/Sources/FrostSwift/Coordinator.swift:30-49 | Distinct binding errors map to distinct Swift errors. |
| `Coordinator.CommitmentPayloads` | FrostSwift/Sources/FrostSwift/Coordinator.swift:128 | Position by position, the list handed to the engine holds exactly the stored commitments' payloads, in the order of the values. Nothing is dropped and nothing foreign is added. |
| `Coordinator.SharePayloads` | FrostSwift/Sources/FrostSwift/Coordinator.swift:165 | Position by position, the list handed to the engine holds exactly the stored shares' payloads, in the order of the values. Nothing is dropped and nothing foreign is added. |
| `Coordinator.Enumerate` | FrostSwift/Sources/FrostSwift/Coordinator.swift:128 | Iterating a dictionary yields every key exactly once. |
| `Coordinator.EnumeratedValues` | FrostSwift/Sources/FrostSwift/Coordinator.swift:165 | Every stored value is handed over, and the number handed over equals the number stored. |
| `Coordinator.Round2For` | FrostSwift/Sources/FrostSwift/Coordinator.swift:125-139 | The first throwing call decides the error, in order: newSigningPackage, then RandomizedParams, then randomizer(). The error is always the bindings' own (FfiError or OtherSwiftError). When all three succeed, the result pairs the built package with the derived randomizer. |
| `Coordinator.Aggregated` | FrostSwift/Sources/FrostSwift/Coordinator.swift:163-170 | Succeeds iff the engine's aggregate does, with the signature it returns. Otherwise the engine's own error is re-thrown unchanged. |
| `Coordinator.NonSigningCoordinator.constructor` | FrostSwift/Sources/FrostSwift/Coordinator.swift:103-107 | Stores the immutable session inputs and starts with no commitments, no shares and no round-2 configuration. |
| `Coordinator.NonSigningCoordinator.ValidateNumberOfCommitments` | FrostSwift/Sources/FrostSwift/Coordinator.swift:185-195 | Passes iff min <= count <= max. Otherwise incorrectNumberOfCommitments(min, max, count). |
| `Coordinator.NonSigningCoordinator.Round2ConfigPresent` | FrostSwift/Sources/FrostSwift/Coordinator.swift:177-183 | Returns the stored configuration iff there is one. Otherwise signingPackageMissing. |
| `Coordinator.NonSigningCoordinator.ReceiveCommitment` | FrostSwift/Sources/FrostSwift/Coordinator.swift:109-116 | Accepted iff the identifier is new, and then stored under it. A repeat with any payload throws alreadyReceivedCommitmentFromIdentifier and leaves the map as it was. Shares and round2Config never change. |
| `Coordinator.NonSigningCoordinator.CreateSigningPackage` | FrostSwift/Sources/FrostSwift/Coordinator.swift:118-143 | signingPackageAlreadyCreated comes first, and is thrown iff a configuration already exists. Then comes the bounds check. After that the result is the engine's result over every stored commitment, with no participant contributing twice. Any coordinator error comes from one of the two guards. round2Config is set only on success, always with a randomizer. The maps never change. |
| `Coordinator.NonSigningCoordinator.ReceiveSignatureShare` | FrostSwift/Sources/FrostSwift/Coordinator.swift:146-153 | Accepted iff the identifier is new. A repeat throws alreadyReceivedSignatureShareFromIdentifier with the map unchanged. Whether that identifier sent a commitment is not checked. |
| `Coordinator.NonSigningCoordinator.Aggregate` | FrostSwift/Sources/FrostSwift/Coordinator.swift:155-171 | Changes nothing. Checks run in order: bounds, then signingPackageMissing, then invalidRandomizer. signingPackageMissing is thrown iff the bounds hold and no configuration exists. After that the result is the engine's aggregate over every stored share, with no participant contributing twice. Any coordinator error comes from one of these guards. With a package made by CreateSigningPackage, the randomizer check never fails. |
| `Coordinator.NonSigningCoordinator.Verify` | FrostSwift/Sources/FrostSwift/Coordinator.swift:173-175 | Always throws invalidSignature. |
| `Coordinator.SigningCoordinator.constructor` | FrostSwift/Sources/FrostSwift/Coordinator.swift:208-213 | Stores the session inputs and starts empty. |
| `Coordinator.SigningCoordinator.ReceiveCommitment` | FrostSwift/Sources/FrostSwift/Coordinator.swift:215-217 | Always throws malformedIdentifier. |
| `Coordinator.SigningCoordinator.CreateSigningPackage` | FrostSwift/Sources/FrostSwift/Coordinator.swift:219-227 | Always throws signingPackageAlreadyCreated. |
| `Coordinator.SigningCoordinator.ReceiveSignatureShare` | FrostSwift/Sources/FrostSwift/Coordinator.swift:229-231 | Always throws malformedIdentifier. |
| `Coordinator.SigningCoordinator.Aggregate` | FrostSwift/Sources/FrostSwift/Coordinator.swift:233-235 | Always throws invalidConfiguration. |
| `Coordinator.SigningCoordinator.Verify` | FrostSwift/Sources/FrostSwift/Coordinator.swift:237-239 | Always throws invalidSignature. |
| `Coordinator.TwoOfThreeSession` | FrostSwift/Tests/FrostSwift/TrustedDealerSignatureIntegrationTest.swift:13-95 | The test's 2-of-3 session with one participant dropped (commit, create the package, sign, aggregate: lines 53-82). The model adds four probes that the test does not make: the package requested with one commitment gives incorrectNumberOfCommitments(2, 3, 1), a repeated commitment is rejected, aggregating before the package gives signingPackageMissing, and a second package request gives signingPackageAlreadyCreated. Once the package exists, the signature is the engine's aggregate of exactly the two received shares. |

## Left out

- Cryptography: building the signing package, randomized parameters and the randomizer, aggregation, commitment and signing, `SecretShare::verify` and key generation. They are the `CryptoEngine`, `Codec` and `Dealer` parameters, and their mathematics is not modelled.
- Hex, JSON and byte encodings are opaque `Codec` functions, and the dealer's random number generator is part of the `Dealer` parameter. The uniffi scaffolding is not modelled.
- Actor concurrency: the actor serializes calls, so the coordinator is a sequential object.
- `frost-mobile-sdk/src/participant.rs` (participant-side commitment and signing, which mostly relabel the crate's errors) is not part of this model.
- `FrostSwift/Sources/FrostSwift/Participant.swift` is not part of this model: its `commit()` and `sign()` have empty bodies.
- `FrostSwift/Sources/FrostSwift/SigningCoordinator.swift` (an empty `aggregate`) is not part of this model.
- `FrostSwift/Sources/FrostSwift/FROST.swift`: only its value structs appear, in `SwiftTypes`. Its `FrostError` enum declares only `invalidConfiguration`. The coordinators also throw `invalidSignature` and `malformedIdentifier`, so `SwiftTypes.FrostError` carries all three.
- `SigningCommitments`, `SignatureShare`, `Round2Configuration`, `Randomizer`, `SigningPackage`, `RandomizedParams`, `Signature`, `Message` and `Configuration` are declared outside these files. Their fields in `SwiftTypes` are rebuilt from how Coordinator.swift, FFIConversion.swift and the integration test use them. `FrostSignatureShare` carries only `data`, as in participant.rs:97-100, and `FrostSigningCommitments` carries an identifier and data, as in participant.rs:23-26.
- Coordinator.NonSigningCoordinator.ReceiveCommitment, Coordinator.NonSigningCoordinator.ReceiveSignatureShare and FfiConversion.ToKeyGeneration key their dictionaries by `Identifier`, which wraps a `String`. Swift compares and hashes `String` by Unicode canonical equivalence, but the model compares code point by code point. So `"\u{e9}"` and `"e\u{301}"` are one key in Swift and two keys here. The identifiers the bindings produce are ASCII hex, and for ASCII the two equalities agree.
- `FrostSecretKeyShare::into_key_package`, `FrostKeyPackage::from_key_package`, `FrostKeyPackage::into_key_package` and `verify_and_get_key_package_from` (lib.rs:94-105, 216-237) are not modelled. They combine share verification (`KeyPackage::try_from`) with JSON and hex encoding and decoding, which are left out as cryptography and encoding. Around those steps they relabel errors as InvalidSecretKey or SerializationError. Only `verify_and_get_key_package_from` (lib.rs:233-237) does nothing but relabel an error.
- The Swift `Configuration` initializer lives outside these files and is not part of this model.
- The bindings carry a participant identifier as a Swift `String`, while lib.rs declares `Vec<u8>`. Each side is modelled by its own source, and the FFI lowering between them is left out.
- Coordinator.NonSigningCoordinator.ValidateNumberOfCommitments: the model reports `found` as an unbounded count. It does not capture that Swift's `UInt16(commitments.count)` traps when more than 65535 commitments are held. `receive(commitment:)` puts no bound on that number.
- The model's corrected 32-byte prefix changes what some members do on short input. Where lib.rs panics on data shorter than 32 bytes (lines 48, 133 and 146), these members return an error instead:
- FrostMobileSdk.ConvertVerifyingKey: returns DeserializationError for a verifying key shorter than 32 bytes, where lib.rs:133 panics.
- FrostMobileSdk.ConvertVerifyingShare: returns DeserializationError for a short identifier or a short verifying share, where lib.rs:48 and lib.rs:146 panic.
- FrostMobileSdk.IntoPublicKeyPackage: inherits both of the above, where lib.rs:133 and lib.rs:146 panic.
- FrostMobileSdk.ToSecretShare: returns DeserializationError for a short identifier, where lib.rs:48 panics.
- FrostMobileSdk.ConvertIdentifiers: returns InvalidIdentifier for a short identifier, where lib.rs:265 reaches the panic at lib.rs:48.
- FrostMobileSdk.TrustedDealerKeygenWithIdentifiers: returns InvalidIdentifier for a short participant identifier, where lib.rs:265 panics.
- BTreeMap iteration in `trusted_dealer_keygen_with_identifiers` is modelled as an arbitrary order. That function's result does not depend on the order.

## Findings

| source | as written | input that shows it | evidently intended | confidence | as-written member | corrected member |
|---|---|---|---|---|---|---|
| frost-mobile-sdk/src/lib.rs:48-49 | `self.data[0..32]` is sliced before `try_into().map_err(DeserializationError)`. Fewer than 32 bytes panic, and the `map_err` can never fire. | a `ParticipantIdentifier` with empty `data` | return `DeserializationError` | not executed; high | `FrostMobileSdk.ShortIdentifierPanicsAsWritten` | `FrostMobileSdk.IntoIdentifier` |
| frost-mobile-sdk/src/lib.rs:133-134 | The verifying key (and, at lines 146-147, each verifying share) is sliced to 32 bytes before the `map_err`. A short hex value panics. | a verifying key whose hex decodes to fewer than 32 bytes | return `DeserializationError` | not executed; high | `FrostMobileSdk.Take32AsWritten` | `FrostMobileSdk.Take32` |
