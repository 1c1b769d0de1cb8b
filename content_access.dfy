/** The content-access layer: what content the system may read at inference time
    and what it may pass on to other agents
    (src/openattribution/aims/layers/content_access.py). */
module ContentAccess {
  import opened Outcomes

  /** How content may be shared with other agents; a closed enumeration. */
  datatype RedistributionPolicy = NoRedistribution | SummaryOnly | Attributed | Unrestricted

  /** The four wire strings, and no other, name a policy. */
  const PolicyNames: set<string> := {"none", "summary_only", "attributed", "unrestricted"}

  /** The wire string of a policy. */
  function PolicyName(p: RedistributionPolicy): (s: string)
    ensures s in PolicyNames
  {
    match p
    case NoRedistribution => "none"
    case SummaryOnly => "summary_only"
    case Attributed => "attributed"
    case Unrestricted => "unrestricted"
  }

  /** The validation error for a field value outside its enumeration. */
  datatype ValidationError = NotAPolicy(value: string)

  /** Validation of a wire string into a policy: the policy it names, or an error. */
  function ParsePolicy(s: string): (r: Result<RedistributionPolicy, ValidationError>)
    ensures r.Success? <==> s in PolicyNames
    ensures r.Success? ==> PolicyName(r.value) == s
    ensures r.Failure? ==> r.error == NotAPolicy(s)
  {
    if s == "none" then Success(NoRedistribution)
    else if s == "summary_only" then Success(SummaryOnly)
    else if s == "attributed" then Success(Attributed)
    else if s == "unrestricted" then Success(Unrestricted)
    else Failure(NotAPolicy(s))
  }

  /** Naming a policy and validating the name gives the policy back. */
  lemma PolicyNameRoundTrip(p: RedistributionPolicy)
    ensures ParsePolicy(PolicyName(p)) == Success(p)
  {
    match p
    case NoRedistribution =>
    case SummaryOnly =>
    case Attributed =>
    case Unrestricted =>
  }

  /** Distinct policies have distinct wire strings. */
  lemma PolicyNameInjective(p: RedistributionPolicy, q: RedistributionPolicy)
    requires PolicyName(p) == PolicyName(q)
    ensures p == q
  {
    PolicyNameRoundTrip(p);
    PolicyNameRoundTrip(q);
  }

  /** Exactly four policies exist: the wire names are in one-to-one correspondence with them. */
  lemma ExactlyFourPolicies()
    ensures |PolicyNames| == 4
    ensures forall s :: s in PolicyNames ==> ParsePolicy(s).Success?
  {
  }

  /** tests/test_manifest.py: "attributed" decodes to ATTRIBUTED; a name outside the
      enumeration, such as "maybe", is a validation error. */
  lemma PolicyExamples()
    ensures ParsePolicy("attributed") == Success(Attributed)
    ensures ParsePolicy("maybe") == Failure(NotAPolicy("maybe"))
  {
  }

  /** A content source the system holds a license for; `identifier` and `licenseType` are required. */
  datatype LicensedSource = LicensedSource(
    identifier: string,
    licenseType: string,
    scope: Option<string> := None,
    expiresAt: Option<string> := None)

  /** The layer record; every field has a default. */
  datatype ContentAccessLayer = ContentAccessLayer(
    licensedSources: seq<string> := [],
    sourceDetails: seq<LicensedSource> := [],
    redistributionPolicy: RedistributionPolicy := SummaryOnly,
    rslLicenses: seq<string> := [],
    contentPartnerships: seq<string> := [])

  /** A layer built with no arguments shares summaries only and lists nothing. */
  lemma DefaultContentAccessLayer()
    ensures ContentAccessLayer().redistributionPolicy == SummaryOnly
    ensures ContentAccessLayer().licensedSources == [] && ContentAccessLayer().sourceDetails == []
    ensures ContentAccessLayer().rslLicenses == [] && ContentAccessLayer().contentPartnerships == []
  {
  }

  /** A licensed source given only its required fields has no scope and no expiry. */
  lemma DefaultLicensedSource(identifier: string, licenseType: string)
    ensures LicensedSource(identifier, licenseType).identifier == identifier
    ensures LicensedSource(identifier, licenseType).licenseType == licenseType
    ensures LicensedSource(identifier, licenseType).scope == None
    ensures LicensedSource(identifier, licenseType).expiresAt == None
  {
  }
}
