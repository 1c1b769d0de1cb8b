/** The AI Manifest: a DID string, a schema version, the three layers, timestamps,
    an optional signature and links to companion standards
    (src/openattribution/aims/manifest.py). Timestamps are clock readings passed in. */
module Manifest {
  import opened Outcomes
  import Did
  import Foundation
  import Deployment
  import ContentAccess

  /** The value `sign` stores while real signing is not implemented. */
  const StubSignature: string := "stub-signature"

  /** The content of a manifest. `did` is kept as given, unvalidated; the fields
      after the timestamps have the source's defaults. */
  datatype ManifestData = ManifestData(
    did: string,
    createdAt: int,
    updatedAt: int,
    version: string := "1.0",
    foundation: Foundation.FoundationLayer := Foundation.FoundationLayer(),
    deployment: Deployment.DeploymentLayer := Deployment.DeploymentLayer(),
    contentAccess: ContentAccess.ContentAccessLayer := ContentAccess.ContentAccessLayer(),
    signature: Option<string> := None,
    modelCardUrl: Option<string> := None,
    datasetCardUrl: Option<string> := None,
    a2aCardUrl: Option<string> := None)
  {
    /** `parsed_did`: the stored DID string parsed on demand; it fails, with the
        parser's error, exactly when the string is not an AIMS DID. */
    function ParsedDid(): (r: Result<Did.AimsDid, Did.FormatError>)
      ensures r.Success? <==> exists d :: Did.Denotes(did, d)
      ensures r.Success? ==> Did.Denotes(did, r.value)
      ensures r.Failure? ==> r.error.message == Did.InvalidFormatMessage + did
    {
      Did.ParseFailsOffGrammar(did);
      Did.Parse(did)
    }

    /** `verify`: an unsigned manifest verifies (valid but untrusted); a signed one
        verifies exactly when `check` accepts its signature for it. */
    predicate Verify(check: SignatureCheck): (ok: bool)
      ensures signature.None? ==> ok
      ensures signature.Some? ==> (ok <==> check(this, signature.value))
    {
      match signature
      case None => true
      case Some(s) => check(this, s)
    }

    /** The content after `sign(privateKey)` at clock reading `now`. */
    function Signed(privateKey: seq<bv8>, now: int): (m: ManifestData)
      ensures m.signature == Some(StubSignature) && m.updatedAt == now
      ensures m.(signature := signature, updatedAt := updatedAt) == this
    {
      this.(signature := Some(StubSignature), updatedAt := now)
    }

    /** The last update is no earlier than the creation. */
    predicate TimesOrdered() {
      createdAt <= updatedAt
    }
  }

  /** The signature-verification strategy `verify` defers to: given the manifest and
      its signature, does the signature validate? */
  type SignatureCheck = (ManifestData, string) -> bool

  /** The strategy in force while cryptography is unimplemented: every signature passes. */
  function AcceptAnySignature(m: ManifestData, signature: string): (ok: bool)
    ensures ok
  {
    true
  }

  /** An unsigned manifest verifies under every strategy. */
  lemma UnsignedVerifies(m: ManifestData, check: SignatureCheck)
    requires m.signature == None
    ensures m.Verify(check)
  {
  }

  /** A signed manifest verifies exactly when the strategy accepts its signature, so
      a present but invalid signature fails. */
  lemma SignedVerifiesIffCheckAccepts(m: ManifestData, check: SignatureCheck)
    requires m.signature.Some?
    ensures m.Verify(check) <==> check(m, m.signature.value)
  {
  }

  /** Under the stub strategy every manifest verifies, signed or not. */
  lemma StubVerifiesEverything(m: ManifestData)
    ensures m.Verify(AcceptAnySignature)
  {
  }

  /** The signature does not depend on the key bytes. */
  lemma SignIgnoresKey(m: ManifestData, key1: seq<bv8>, key2: seq<bv8>, now: int)
    ensures m.Signed(key1, now) == m.Signed(key2, now)
  {
  }

  /** Signing twice leaves what signing once at the later time leaves: the same
      signature, with only the update time refreshed. */
  lemma SignTwice(m: ManifestData, key1: seq<bv8>, key2: seq<bv8>, first: int, second: int)
    ensures m.Signed(key1, first).Signed(key2, second) == m.Signed(key2, second)
  {
  }

  /** After signing, the manifest verifies under the stub strategy. */
  lemma SignThenVerify(m: ManifestData, key: seq<bv8>, now: int)
    ensures m.Signed(key, now).Verify(AcceptAnySignature)
  {
  }

  /** Signing at a clock reading no earlier than the last update keeps the
      timestamps ordered and never moves the update time back. */
  lemma SignKeepsTimesOrdered(m: ManifestData, key: seq<bv8>, now: int)
    requires m.TimesOrdered() && now >= m.updatedAt
    ensures m.Signed(key, now).TimesOrdered()
    ensures m.Signed(key, now).updatedAt >= m.updatedAt
    ensures m.Signed(key, now).createdAt == m.createdAt
  {
  }

  /** A manifest built from a DID and the clock alone has the documented defaults
      and verifies (tests/test_manifest.py). */
  lemma MinimalManifest(did: string, now: int)
    ensures ManifestData(did, now, now).did == did
    ensures ManifestData(did, now, now).version == "1.0"
    ensures ManifestData(did, now, now).signature == None
    ensures ManifestData(did, now, now).foundation == Foundation.FoundationLayer()
    ensures ManifestData(did, now, now).deployment == Deployment.DeploymentLayer()
    ensures ManifestData(did, now, now).contentAccess == ContentAccess.ContentAccessLayer()
    ensures ManifestData(did, now, now).modelCardUrl == None
    ensures ManifestData(did, now, now).datasetCardUrl == None
    ensures ManifestData(did, now, now).a2aCardUrl == None
    ensures ManifestData(did, now, now).TimesOrdered()
    ensures ManifestData(did, now, now).Verify(AcceptAnySignature)
  {
  }

  /** A manifest keeps the layer values it is given (tests/test_manifest.py). */
  lemma FullManifestExample(now: int)
    ensures var m := ManifestData(
              "did:aims:web:retailer.com:shopping-assistant", now, now,
              foundation := Foundation.FoundationLayer(
                trainingDatasets := ["dataset:openwebtext", "dataset:product-reviews"],
                rslCompliance := true,
                licensingSummary := Some("Trained on licensed and public domain data")),
              deployment := Deployment.DeploymentLayer(
                operator := Some("Retailer Inc."),
                domainSpecialization := ["e-commerce", "consumer-electronics"],
                commercialPurpose := Some("Product recommendations")),
              contentAccess := ContentAccess.ContentAccessLayer(
                licensedSources := ["source:wirecutter", "source:rtings"],
                redistributionPolicy := ContentAccess.SummaryOnly));
            && m.foundation.rslCompliance
            && |m.foundation.trainingDatasets| == 2
            && m.deployment.operator == Some("Retailer Inc.")
            && m.contentAccess.redistributionPolicy == ContentAccess.SummaryOnly
  {
  }

  /** tests/test_manifest.py: the parsed DID of "did:aims:web:example.com:my-agent"
      exposes the organization and system id. */
  lemma ParsedDidExample(now: int)
    ensures ManifestData("did:aims:" + "web" + ":" + "example.com" + ":" + "my-agent", now, now).ParsedDid()
            == Success(Did.AimsDid("web", "example.com", "my-agent"))
  {
    var d := Did.AimsDid("web", "example.com", "my-agent");
    assert d.WellFormed() by {
      assert Did.ValidMethod(d.methodName) && Did.ValidOrganization(d.organization) && Did.ValidSystemId(d.systemId);
    }
    Did.ParseAfterRender(d);
  }

  /** A manifest object: `sign` updates its signature and update time in place. */
  class AIManifest {
    var did: string
    var version: string
    var foundation: Foundation.FoundationLayer
    var deployment: Deployment.DeploymentLayer
    var contentAccess: ContentAccess.ContentAccessLayer
    var createdAt: int
    var updatedAt: int
    var signature: Option<string>
    var modelCardUrl: Option<string>
    var datasetCardUrl: Option<string>
    var a2aCardUrl: Option<string>

    /** The manifest's current content. */
    function Data(): ManifestData
      reads this
    {
      ManifestData(did, createdAt, updatedAt, version, foundation, deployment, contentAccess,
                   signature, modelCardUrl, datasetCardUrl, a2aCardUrl)
    }

    /** A manifest object holding the given content, stored as given. */
    constructor (data: ManifestData)
      ensures Data() == data
    {
      did := data.did;
      version := data.version;
      foundation := data.foundation;
      deployment := data.deployment;
      contentAccess := data.contentAccess;
      createdAt := data.createdAt;
      updatedAt := data.updatedAt;
      signature := data.signature;
      modelCardUrl := data.modelCardUrl;
      datasetCardUrl := data.datasetCardUrl;
      a2aCardUrl := data.a2aCardUrl;
    }

    /** `sign`: stores the stub signature and the clock reading as the update time;
        every other field is left as it was. */
    method Sign(privateKey: seq<bv8>, now: int)
      modifies this
      ensures Data() == old(Data()).Signed(privateKey, now)
      ensures signature == Some(StubSignature) && updatedAt == now
      ensures did == old(did) && version == old(version) && createdAt == old(createdAt)
      ensures foundation == old(foundation) && deployment == old(deployment)
      ensures contentAccess == old(contentAccess)
      ensures modelCardUrl == old(modelCardUrl) && datasetCardUrl == old(datasetCardUrl)
      ensures a2aCardUrl == old(a2aCardUrl)
    {
      signature := Some(StubSignature);
      updatedAt := now;
    }
  }
}
