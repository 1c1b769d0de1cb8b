# AIMS identifiers and trust documents, in Dafny

This project models the core of the AI Manifest Standard (AIMS) client library.
That core has four parts:

- **Decentralized identifiers.** An AIMS DID has the form
  `did:aims:<method>:<organization>:<system-id>`. The library parses it, renders it
  back, builds one without validation, and derives the well-known resolution URL
  for the `web` method.
- **The AI Manifest.** This is the trust document. It holds a DID string, a schema
  version, three layer records, two timestamps, an optional signature and three
  links to companion standards. It can parse its DID on demand, verify its
  signature and sign itself.
- **The three layer schemas.** These are the foundation layer, the deployment layer
  and the content-access layer. They are plain records with defaults, plus the
  closed `RedistributionPolicy` enumeration.
- **The manifest store client.** It publishes a manifest to a registry, and it
  resolves and verifies a manifest by DID.

Files and modules:

- `outcomes.dfy` (`Outcomes`): `Option` and `Result`. A `Result` stands for a
  Python function that either returns or raises.
- `text.dfy` (`Text`): splitting at a separator, joining, and `rstrip` of one
  character, with the lemmas that make parsing unambiguous.
- `did.dfy` (`Did`): the identifier value `AimsDid` and its operations.
- `did_examples.dfy` (`DidExamples`): the identifier test cases as lemmas.
- `content_access.dfy`, `foundation.dfy`, `deployment.dfy`: the layer records.
  Their defaults are written as default constructor arguments.
- `manifest.dfy` (`Manifest`): `ManifestData` is the content of a manifest.
  `AIManifest` is the object that `sign` updates in place.
- `store.dfy` (`Store`): the `ManifestStore` client.

Modelling choices:

- **Identifier parsing.** `Parse` follows the anchored pattern of the source. Its
  closing `$` also matches just before one final newline, so the model first
  removes one trailing `"\n"` and then matches the whole remaining text strictly.
  The ghost predicate `Denotes(s, d)` states the grammar declaratively: `d` is
  well formed, and `s` is its canonical text, optionally followed by one newline.
  `Parse` is proved sound and complete with respect to it.
- **Immutability and equality.** An identifier is a Dafny datatype value, so it
  cannot be updated in place and two identifiers are equal exactly when their
  three components are. This matches the frozen dataclass of the source.
- **Signature checking.** `verify` takes a signature-checking strategy as a
  parameter (`SignatureCheck`). The behaviour of the source, which accepts every
  signature, is the strategy `AcceptAnySignature`.
- **Clock.** Each reading of the clock is an integer passed in by the caller.
- **Transport and decoding.** The HTTP round trip is a function from `Request` to
  `Response`, passed in by the caller. So is decoding a response body into a
  manifest.
- **Success statuses.** A status counts as success when it is 2xx. Any other
  status is an error, except that `resolve` maps 404 to absence.

Where the code does less than its own documentation, or less than a reader would
expect of it, the model follows the code:

- **Round trip of accepted texts.** One would expect every text `parse` accepts
  to render back unchanged. The pattern also accepts a text followed by one
  `"\n"`, and rendering the result drops the newline. So the round trip is proved
  only for texts without a final newline (`Did.RenderAfterParse`), and the quirk
  is proved separately (`Did.FinalNewlineAccepted`).
- **Invalid signatures.** The docstring of `verify` promises false for an invalid
  signature (src/openattribution/aims/manifest.py:56). The code returns true for
  every signature. The model proves the general contract for any strategy
  (`Manifest.SignedVerifiesIffCheckAccepts`), and it proves the behaviour of the
  code for the stub strategy (`Manifest.StubVerifiesEverything`).
- **Signature value.** The docstring of `sign` takes Ed25519 private key bytes
  (src/openattribution/aims/manifest.py:73), so a signature would depend on the
  key and the content. The code stores the constant `"stub-signature"` whatever
  the key is.
- **Timestamp order.** One would expect `updated_at >= created_at` to hold. The
  code does not enforce it, because it simply stores the clock reading. The model
  proves that signing preserves the order whenever the clock has not gone back
  (`Manifest.SignKeepsTimesOrdered`).

## Model

| member | source | states |
|---|---|---|
| `Did.Parse` | src/openattribution/aims/did.py:29-31 | a successful parse returns a well-formed identifier whose canonical text is the input, optionally followed by one newline; a failure carries the message "Invalid AIMS DID format: " followed by the input |
| `Did.ParseAccepts` | src/openattribution/aims/did.py:50-58 | completeness: every text the grammar admits parses, and it parses to the three components it spells |
| `Did.ParseFailsOffGrammar` | src/openattribution/aims/did.py:50-52 | parse raises exactly on the texts that name no identifier (wrong scheme, missing component, a character outside its class) |
| `Did.RenderAfterParse` | src/openattribution/aims/did.py:33-35 | rendering a parsed identifier gives back the accepted text, when that text does not end in a newline |
| `Did.ParseAfterRender` | src/openattribution/aims/did.py:33-35 | a well-formed identifier renders to a text that parses back to the same identifier |
| `Did.ToStringInjective` | src/openattribution/aims/did.py:35 | identifiers whose components contain no ':' have equal canonical texts only if they are equal |
| `Did.FinalNewlineAccepted` | src/openattribution/aims/did.py:30 | the pattern's `$` lets one final newline through: "did:aims:web:a.com:x\n" parses, and rendering the result drops the newline |
| `Did.Create` | src/openattribution/aims/did.py:61-72 | create stores its three arguments verbatim, with no check and for every input; the method defaults to "web" |
| `Did.CreateParsesIffValid` | src/openattribution/aims/did.py:61-72 | what create builds round-trips through parse exactly when each argument lies in its character class |
| `Did.CreateSkipsValidation` | src/openattribution/aims/did.py:72 | create accepts the method "WEB", and parse rejects the text of the resulting identifier |
| `Did.AimsDid.ToString` | src/openattribution/aims/did.py:33-35 | the canonical text `did:aims:<method>:<organization>:<system_id>` starts with the scheme and holds the three components and two separators; it is the inverse of `Parse` on well-formed identifiers (`Did.ParseAfterRender`) and injective on colon-free components (`Did.ToStringInjective`) |
| `Did.AimsDid.ResolveUrl` | src/openattribution/aims/did.py:74-82 | the URL is present exactly for the `web` method, and then it is https://<organization>/.well-known/aims/<system_id>.json |
| `Did.ResolveUrlInjective` | src/openattribution/aims/did.py:80-81 | two well-formed `web` identifiers with the same resolution URL are the same identifier |
| `DidExamples.ParseWebExample` | tests/test_did.py:11-17 | "did:aims:web:example.com:shopping-assistant" parses to web / example.com / shopping-assistant |
| `DidExamples.ParseKeyExample` | tests/test_did.py:64-68 | "did:aims:key:z6MkTest:agent" parses to a `key` identifier, which has no resolution URL |
| `DidExamples.ParseInvalidExamples` | tests/test_did.py:27-35 | "not-a-did" and "did:web:example.com:agent" are rejected with the format error |
| `DidExamples.CreateExamples` | tests/test_did.py:44-56 | create without a method builds a `web` identifier, and with the method "key" a `key` identifier, from the given parts |
| `DidExamples.ResolveUrlWebExample` | tests/test_did.py:58-62 | the `web` identifier example.com/agent resolves to https://example.com/.well-known/aims/agent.json |
| `ContentAccess.PolicyName` | src/openattribution/aims/layers/content_access.py:8-14 | every policy has one of the four wire strings |
| `ContentAccess.ParsePolicy` | src/openattribution/aims/layers/content_access.py:41-44 | a string is accepted as a policy exactly when it is one of the four wire strings; the accepted policy has that wire string, and any other string is a validation error |
| `ContentAccess.PolicyNameRoundTrip` | src/openattribution/aims/layers/content_access.py:11-14 | naming a policy and validating the name gives back the policy |
| `ContentAccess.PolicyNameInjective` | src/openattribution/aims/layers/content_access.py:11-14 | distinct policies have distinct wire strings |
| `ContentAccess.ExactlyFourPolicies` | src/openattribution/aims/layers/content_access.py:8-14 | there are exactly four wire strings, and each names a policy |
| `ContentAccess.PolicyExamples` | tests/test_manifest.py:82-89 | "attributed" validates to ATTRIBUTED; the illustrative non-member "maybe" is a validation error |
| `ContentAccess.DefaultContentAccessLayer` | src/openattribution/aims/layers/content_access.py:33-52 | the default layer has policy summary_only and four empty lists |
| `ContentAccess.DefaultLicensedSource` | src/openattribution/aims/layers/content_access.py:20-23 | a licensed source keeps its identifier and license type, and its scope and expiry default to None |
| `Foundation.DefaultFoundationLayer` | src/openattribution/aims/layers/foundation.py:23-42 | the default layer has no datasets, claims no RSL compliance, and has no licensing summary or audit contact |
| `Foundation.DefaultDatasetReference` | src/openattribution/aims/layers/foundation.py:9-12 | a dataset reference keeps its identifier; license and Merkle root default to None, and rsl_compliant to false |
| `Deployment.DefaultDeploymentLayer` | src/openattribution/aims/layers/deployment.py:21-40 | the default layer has no operator, no commercial purpose and three empty lists |
| `Deployment.DefaultBrandAffiliation` | src/openattribution/aims/layers/deployment.py:9-11 | an affiliation keeps its brand and relationship, and its influence type defaults to None |
| `Manifest.ManifestData.ParsedDid` | src/openattribution/aims/manifest.py:48-51 | the stored DID string parses exactly when some identifier denotes it; the result is that identifier, or the parser's format error citing the string |
| `Manifest.ManifestData.Verify` | src/openattribution/aims/manifest.py:53-67 | verify is true when the manifest is unsigned, and otherwise it is the verdict of the signature strategy on the stored signature |
| `Manifest.AcceptAnySignature` | src/openattribution/aims/manifest.py:66-67 | the strategy of the source while cryptography is a stub: every signature passes |
| `Manifest.UnsignedVerifies` | src/openattribution/aims/manifest.py:64-65 | an unsigned manifest verifies, whatever the signature strategy |
| `Manifest.SignedVerifiesIffCheckAccepts` | src/openattribution/aims/manifest.py:66-67 | a signed manifest verifies exactly when the strategy accepts its signature |
| `Manifest.StubVerifiesEverything` | src/openattribution/aims/manifest.py:63-67 | under the stub strategy of the source, every manifest verifies, signed or not |
| `Manifest.ManifestData.Signed` | src/openattribution/aims/manifest.py:78-80 | after signing, the signature is "stub-signature" and the update time is the clock reading; every other field is unchanged |
| `Manifest.SignIgnoresKey` | src/openattribution/aims/manifest.py:69-79 | the result of signing does not depend on the private key bytes |
| `Manifest.SignTwice` | src/openattribution/aims/manifest.py:79-80 | signing twice equals signing once at the later time: same signature, update time refreshed |
| `Manifest.SignThenVerify` | src/openattribution/aims/manifest.py:63-67 | a signed manifest verifies under the stub strategy |
| `Manifest.SignKeepsTimesOrdered` | src/openattribution/aims/manifest.py:78-80 | signing at a clock reading no earlier than the last update keeps created <= updated, does not move the update time back, and keeps the creation time |
| `Manifest.MinimalManifest` | src/openattribution/aims/manifest.py:21-46 | a manifest built from a DID alone keeps the DID, has version "1.0", no signature, no companion URLs and default layers, and it verifies |
| `Manifest.FullManifestExample` | tests/test_manifest.py:23-46 | layer values supplied at construction read back unchanged (two datasets, RSL compliance, operator, policy) |
| `Manifest.ParsedDidExample` | tests/test_manifest.py:48-54 | the parsed DID of "did:aims:web:example.com:my-agent" has organization example.com and system id my-agent |
| `Manifest.AIManifest.constructor` | src/openattribution/aims/manifest.py:11-46 | a manifest object holds exactly the content it is given; the DID string is not validated |
| `Manifest.AIManifest.Sign` | src/openattribution/aims/manifest.py:69-80 | sign updates the object in place: the new content is the old content signed, and did, version, layers, creation time and companion URLs are unchanged |
| `Text.RStrip` | src/openattribution/aims/store.py:23 | rstrip returns a prefix of its input that does not end with the character, and only that character was removed |
| `Text.RStripUnique` | src/openattribution/aims/store.py:23 | the three properties of rstrip determine its result |
| `Text.RStripIdempotent` | src/openattribution/aims/store.py:23 | normalising a normalised URL changes nothing |
| `Store.ManifestStore.constructor` | src/openattribution/aims/store.py:16-24 | the stored base URL is the argument without its trailing '/' characters, it is already normalised, and the timeout (default 30.0) is stored |
| `Store.ManifestStore.PublishRequest` | src/openattribution/aims/store.py:38-42 | publish posts the manifest to the base URL followed by "/manifests" |
| `Store.ManifestStore.Publish` | src/openattribution/aims/store.py:38-44 | publish succeeds exactly on a success status, and then it returns the manifest's own DID; otherwise it fails with the status and body |
| `Store.PublishIgnoresResponseBody` | src/openattribution/aims/store.py:43-44 | on success, the returned DID does not depend on the registry's answer |
| `Store.ManifestStore.ResolveRequest` | src/openattribution/aims/store.py:59 | resolve reads the base URL followed by "/manifests/" and the DID |
| `Store.ManifestStore.Resolve` | src/openattribution/aims/store.py:58-63 | resolve returns absence exactly on 404; it fails with a transport error exactly on other non-success statuses; it returns a manifest exactly when the status is a success and the body decodes, and then it is the decoded manifest; a success whose body does not decode is a decode error carrying that body; a transport error carries the status and body |
| `Store.ManifestStore.Verify` | src/openattribution/aims/store.py:74-77 | verify fails exactly when resolve fails, with the same error; it is false on absence; otherwise it is the resolved manifest's own verdict |
| `Store.StubVerifyIffFound` | src/openattribution/aims/store.py:74-77 | under the stub strategy, verify is true exactly when the DID resolves to a manifest, and false exactly when the registry answers 404 |
| `Store.UnknownDidIsAbsent` | src/openattribution/aims/store.py:60-61 | a DID the registry answers 404 for resolves to absence, not an error, and verifies as false |
| `Store.DefaultConfig` | src/openattribution/aims/store.py:83-85 | a store configuration needs a URL; its name defaults to "default" and its priority to 0 |

## Left out

- The HTTP client: the async context manager, the awaits and the use of the
  timeout. They are I/O and a foreign library. A round trip is a function from
  `Request` to `Response`, and the timeout is only stored.
- Round trips that fail without a response. In the source a connection error or a
  timeout raises `httpx.HTTPError` from `publish` and `resolve` before any status
  exists (src/openattribution/aims/store.py:35-36, 55-56). The transport here
  always returns a `Response`, so that path has no counterpart and `StoreError`
  covers only failures that have a response.
- Which statuses the HTTP library's `raise_for_status` rejects. The library is not
  part of this model. Every status outside 2xx is treated as a failure.
- The JSON wire form (`model_dump` and `model_validate`) and the textual timestamp
  format. They belong to the validation library. A publish request carries the
  manifest value itself, and decoding a response body is a partial function passed
  in. So the serialisation round trip and an end-to-end publish-then-resolve
  scenario are not modelled.
- Type validation of the layer fields other than the redistribution policy. In
  Dafny the field types enforce it.
- Wall-clock time and time zones. Every clock reading is an integer passed in.
- Ed25519 signing and Merkle trees. `src/openattribution/aims/crypto/__init__.py`
  only contains plans for them. Signing is modelled as the stub of the source, and
  verification as a pluggable strategy.
- The package and re-export files `src/openattribution/__init__.py`,
  `src/openattribution/aims/__init__.py` and
  `src/openattribution/aims/layers/__init__.py`. They contain no logic.
