/** The deployment layer: the commercial and operational context that may shape
    the system's outputs (src/openattribution/aims/layers/deployment.py). */
module Deployment {
  import opened Outcomes

  /** A declared brand affiliation; `brand` and `relationship` are required. */
  datatype BrandAffiliation = BrandAffiliation(
    brand: string,
    relationship: string,
    influenceType: Option<string> := None)

  /** The layer record; every field has a default. */
  datatype DeploymentLayer = DeploymentLayer(
    operator: Option<string> := None,
    brandAffiliations: seq<BrandAffiliation> := [],
    domainSpecialization: seq<string> := [],
    declaredBiases: seq<string> := [],
    commercialPurpose: Option<string> := None)

  /** A layer built with no arguments names no operator or purpose and lists nothing. */
  lemma DefaultDeploymentLayer()
    ensures DeploymentLayer().operator == None && DeploymentLayer().commercialPurpose == None
    ensures DeploymentLayer().brandAffiliations == []
    ensures DeploymentLayer().domainSpecialization == [] && DeploymentLayer().declaredBiases == []
  {
  }

  /** An affiliation given only its required fields has no influence type. */
  lemma DefaultBrandAffiliation(brand: string, relationship: string)
    ensures BrandAffiliation(brand, relationship).brand == brand
    ensures BrandAffiliation(brand, relationship).relationship == relationship
    ensures BrandAffiliation(brand, relationship).influenceType == None
  {
  }
}
