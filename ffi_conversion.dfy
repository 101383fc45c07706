/** Conversions between the FrostSwift values and the FrostSwiftFFI records
    (FrostSwift/Sources/FrostSwift/FFIConversion.swift). */
module FfiConversion {
  import opened Wrappers
  import opened SwiftTypes
  import FrostMobileSdk

  /** `Configuration.intoFFIConfiguration`: the thresholds are kept, an absent
      dealer secret becomes empty data. */
  function IntoFfiConfiguration(c: Configuration): (r: FfiConfiguration)
    ensures r.minSigners == c.minSigners && r.maxSigners == c.maxSigners
    ensures c.secret.None? ==> r.secret == []
    ensures c.secret.Some? ==> r.secret == c.secret.value
  {
    FrostMobileSdk.Configuration(c.minSigners, c.maxSigners, if c.secret.Some? then c.secret.value else [])
  }

  /** The lowered configuration passes the SDK's `validate_config` exactly when
      the Swift thresholds satisfy 2 <= min <= max; the secret plays no part. */
  lemma IntoFfiConfigurationValidates(c: Configuration)
    ensures FrostMobileSdk.ValidateConfig(IntoFfiConfiguration(c)) == Pass <==> 2 <= c.minSigners <= c.maxSigners
  {
  }

  /** `ParticipantIdentifier.toIdentifier`. */
  function ToIdentifier(p: ParticipantIdentifier): (id: Identifier)
    ensures id.id.data == p.data
  {
    Identifier(p)
  }

  /** `Identifier.toParticipantIdentifier`. */
  function ToParticipantIdentifier(id: Identifier): (p: ParticipantIdentifier)
    ensures p.data == id.id.data
  {
    id.id
  }

  lemma ParticipantIdentifierRoundTrip(p: ParticipantIdentifier)
    ensures ToParticipantIdentifier(ToIdentifier(p)) == p
  {
  }

  lemma IdentifierRoundTrip(id: Identifier)
    ensures ToIdentifier(ToParticipantIdentifier(id)) == id
  {
  }

  /** `TrustedKeyGeneration.toKeyGeneration`: every dealt share, in the
      dictionary's iteration order, is wrapped and stored under its key's
      `Identifier`; the public key package is wrapped unchanged. */
  method ToKeyGeneration(t: TrustedKeyGeneration) returns (r: KeyGeneration)
    ensures r.publicKeyPackage == PublicKeyPackage(t.publicKeyPackage)
    ensures forall p :: p in t.secretShares ==>
      ToIdentifier(p) in r.secretShares && r.secretShares[ToIdentifier(p)] == SecretShare(t.secretShares[p])
    ensures forall id :: id in r.secretShares ==> ToParticipantIdentifier(id) in t.secretShares
    ensures |r.secretShares| == |t.secretShares|
  {
    var keys: map<Identifier, SecretShare> := map[];
    var remaining := t.secretShares.Keys;
    while remaining != {}
      invariant remaining <= t.secretShares.Keys
      invariant forall p :: p in t.secretShares && p !in remaining ==>
        ToIdentifier(p) in keys && keys[ToIdentifier(p)] == SecretShare(t.secretShares[p])
      invariant forall id :: id in keys ==> ToParticipantIdentifier(id) in t.secretShares && ToParticipantIdentifier(id) !in remaining
      invariant |keys| + |remaining| == |t.secretShares|
      decreases remaining
    {
      var p :| p in remaining;
      assert ToParticipantIdentifier(ToIdentifier(p)) == p;
      keys := keys[ToIdentifier(p) := SecretShare(t.secretShares[p])];
      remaining := remaining - {p};
    }
    r := KeyGeneration(PublicKeyPackage(t.publicKeyPackage), keys);
  }
}
