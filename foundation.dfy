/** The foundation layer: the licensing provenance of the training data
    (src/openattribution/aims/layers/foundation.py). */
module Foundation {
  import opened Outcomes

  /** A training dataset with its license; only `identifier` is required. */
  datatype DatasetReference = DatasetReference(
    identifier: string,
    license: Option<string> := None,
    rslCompliant: bool := false,
    merkleRoot: Option<string> := None)

  /** The layer record; every field has a default. */
  datatype FoundationLayer = FoundationLayer(
    trainingDatasets: seq<string> := [],
    datasetDetails: seq<DatasetReference> := [],
    rslCompliance: bool := false,
    licensingSummary: Option<string> := None,
    auditContact: Option<string> := None)

  /** A layer built with no arguments lists no datasets, claims no RSL compliance
      and has no summary or audit contact. */
  lemma DefaultFoundationLayer()
    ensures FoundationLayer().trainingDatasets == [] && FoundationLayer().datasetDetails == []
    ensures !FoundationLayer().rslCompliance
    ensures FoundationLayer().licensingSummary == None && FoundationLayer().auditContact == None
  {
  }

  /** A dataset reference given only its identifier has no license, no Merkle root
      and is not marked RSL compliant. */
  lemma DefaultDatasetReference(identifier: string)
    ensures DatasetReference(identifier).identifier == identifier
    ensures DatasetReference(identifier).license == None && DatasetReference(identifier).merkleRoot == None
    ensures !DatasetReference(identifier).rslCompliant
  {
  }
}
