/** AIMS decentralized identifiers: `did:aims:<method>:<organization>:<system-id>`.
    Parsing, rendering, unchecked construction and the well-known resolution URL
    (src/openattribution/aims/did.py). */
module Did {
  import opened Outcomes
  import Text

  /** The fixed scheme prefix every AIMS identifier starts with. */
  const Scheme: string := "did:aims:"

  /** The text of the error `parse` raises, before the offending input is appended. */
  const InvalidFormatMessage: string := "Invalid AIMS DID format: "

  /** Character classes of the identifier grammar (`[a-z]`, `[a-zA-Z0-9.-]`, `[a-zA-Z0-9_-]`). */
  predicate IsMethodChar(c: char) { 'a' <= c <= 'z' }

  predicate IsAlphanumeric(c: char) { 'a' <= c <= 'z' || 'A' <= c <= 'Z' || '0' <= c <= '9' }

  predicate IsOrganizationChar(c: char) { IsAlphanumeric(c) || c == '.' || c == '-' }

  predicate IsSystemIdChar(c: char) { IsAlphanumeric(c) || c == '_' || c == '-' }

  /** Each component is a non-empty run of its character class. */
  predicate ValidMethod(s: string) { |s| > 0 && forall i :: 0 <= i < |s| ==> IsMethodChar(s[i]) }

  predicate ValidOrganization(s: string) { |s| > 0 && forall i :: 0 <= i < |s| ==> IsOrganizationChar(s[i]) }

  predicate ValidSystemId(s: string) { |s| > 0 && forall i :: 0 <= i < |s| ==> IsSystemIdChar(s[i]) }

  /** The error `parse` raises (a `ValueError` in the source), carrying its message. */
  datatype FormatError = FormatError(message: string)

  /** An identifier: an immutable value whose equality is equality of its three components. */
  datatype AimsDid = AimsDid(methodName: string, organization: string, systemId: string) {

    /** Every component lies in its character class, as `parse` demands. */
    predicate WellFormed() {
      ValidMethod(methodName) && ValidOrganization(organization) && ValidSystemId(systemId)
    }

    /** The canonical text `did:aims:<method>:<organization>:<system_id>` (`__str__`). */
    function ToString(): (s: string)
      ensures Scheme <= s
      ensures |s| == |Scheme| + |methodName| + 1 + |organization| + 1 + |systemId|
    {
      Scheme + methodName + ":" + organization + ":" + systemId
    }

    /** The well-known document URL; only the `web` method has one. */
    function ResolveUrl(): (url: Option<string>)
      ensures url.Some? <==> methodName == "web"
      ensures url.Some? ==> url.value == "https://" + organization + "/.well-known/aims/" + systemId + ".json"
    {
      if methodName == "web" then Some("https://" + organization + "/.well-known/aims/" + systemId + ".json")
      else None
    }
  }

  /** `s` is a text `parse` accepts and `d` the identifier it names: the canonical
      text of a well-formed `d`, optionally followed by ONE newline, because the
      pattern's closing `$` also matches just before a final "\n". */
  ghost predicate Denotes(s: string, d: AimsDid) {
    d.WellFormed() && (s == d.ToString() || s == d.ToString() + "\n")
  }

  /** The text the anchored pattern is matched against once `$` has absorbed a final newline. */
  function StripFinalNewline(s: string): string {
    if |s| > 0 && s[|s| - 1] == '\n' then s[..|s| - 1] else s
  }

  /** The strict match of the pattern against the whole of `text`. */
  function MatchCanonical(text: string): (r: Option<AimsDid>)
    ensures r.Some? ==> r.value.WellFormed() && r.value.ToString() == text
  {
    if |text| < |Scheme| || text[..|Scheme|] != Scheme then None
    else
      var fields := Text.Split(text[|Scheme|..], ':');
      if |fields| == 3 && ValidMethod(fields[0]) && ValidOrganization(fields[1]) && ValidSystemId(fields[2]) then
        var d := AimsDid(fields[0], fields[1], fields[2]);
        CanonicalIsJoin(d);
        assert fields == [fields[0], fields[1], fields[2]];
        assert text == Scheme + text[|Scheme|..];
        Some(d)
      else None
  }

  /** `AIMSDID.parse`: the identifier the text names, or the format error citing it. */
  function Parse(s: string): (r: Result<AimsDid, FormatError>)
    ensures r.Success? ==> Denotes(s, r.value)
    ensures r.Failure? ==> r.error == FormatError(InvalidFormatMessage + s)
  {
    match MatchCanonical(StripFinalNewline(s))
    case Some(d) => Success(d)
    case None => Failure(FormatError(InvalidFormatMessage + s))
  }

  /** `AIMSDID.create`: the three strings stored verbatim, with no grammar check. */
  function Create(organization: string, systemId: string, methodName: string := "web"): (d: AimsDid)
    ensures d.methodName == methodName && d.organization == organization && d.systemId == systemId
  {
    AimsDid(methodName, organization, systemId)
  }

  /** The canonical text is the scheme followed by the components joined with ':'. */
  lemma CanonicalIsJoin(d: AimsDid)
    ensures d.ToString() == Scheme + Text.Join([d.methodName, d.organization, d.systemId], ':')
  {
    var parts := [d.methodName, d.organization, d.systemId];
    assert parts[1..] == [d.organization, d.systemId];
    assert parts[1..][1..] == [d.systemId];
    assert Text.Join(parts[1..], ':') == d.organization + ":" + d.systemId;
    assert Text.Join(parts, ':') == d.methodName + ":" + (d.organization + ":" + d.systemId);
  }

  /** No component of a well-formed identifier contains the ':' separator. */
  lemma NoColonInComponents(d: AimsDid)
    requires d.WellFormed()
    ensures forall p :: p in [d.methodName, d.organization, d.systemId] ==> ':' !in p
  {
    assert !IsMethodChar(':') && !IsOrganizationChar(':') && !IsSystemIdChar(':');
    assert ':' !in d.methodName && ':' !in d.organization && ':' !in d.systemId;
  }

  /** Completeness: every text the grammar admits parses, to the identifier it names. */
  lemma ParseAccepts(s: string, d: AimsDid)
    requires Denotes(s, d)
    ensures Parse(s) == Success(d)
  {
    var t := d.ToString();
    assert t[|t| - 1] == d.systemId[|d.systemId| - 1];
    assert d.systemId[|d.systemId| - 1] in d.systemId;
    if s == t + "\n" {
      assert s[..|s| - 1] == t;
    }
    assert StripFinalNewline(s) == t;
    var parts := [d.methodName, d.organization, d.systemId];
    CanonicalIsJoin(d);
    NoColonInComponents(d);
    Text.SplitOfJoin(parts, ':');
    assert t[..|Scheme|] == Scheme;
    assert t[|Scheme|..] == Text.Join(parts, ':');
  }

  /** `parse` fails exactly on the texts that name no identifier. */
  lemma ParseFailsOffGrammar(s: string)
    ensures Parse(s).Failure? <==> forall d :: !Denotes(s, d)
  {
    if Parse(s).Failure? {
      forall d | Denotes(s, d) ensures false {
        ParseAccepts(s, d);
      }
    }
  }

  /** Round trip text -> identifier -> text, for accepted texts without a final newline. */
  lemma RenderAfterParse(s: string)
    requires Parse(s).Success?
    requires |s| == 0 || s[|s| - 1] != '\n'
    ensures Parse(s).value.ToString() == s
  {
  }

  /** Round trip identifier -> text -> identifier, for components within their classes. */
  lemma ParseAfterRender(d: AimsDid)
    requires d.WellFormed()
    ensures Parse(d.ToString()) == Success(d)
  {
    ParseAccepts(d.ToString(), d);
  }

  /** No component contains the ':' that separates components. */
  predicate ColonFree(d: AimsDid) {
    ':' !in d.methodName && ':' !in d.organization && ':' !in d.systemId
  }

  /** Different identifiers with colon-free components (in particular, different
      well-formed ones) have different canonical texts. */
  lemma ToStringInjective(d1: AimsDid, d2: AimsDid)
    requires ColonFree(d1) && ColonFree(d2)
    requires d1.ToString() == d2.ToString()
    ensures d1 == d2
  {
    var p1 := [d1.methodName, d1.organization, d1.systemId];
    var p2 := [d2.methodName, d2.organization, d2.systemId];
    CanonicalIsJoin(d1);
    CanonicalIsJoin(d2);
    assert Text.Join(p1, ':') == d1.ToString()[|Scheme|..] == d2.ToString()[|Scheme|..] == Text.Join(p2, ':');
    Text.JoinInjective(p1, p2, ':');
  }

  /** The `$` quirk: one final newline is accepted, and rendering the result drops it. */
  lemma FinalNewlineAccepted()
    ensures Parse("did:aims:" + "web" + ":" + "a.com" + ":" + "x" + "\n") == Success(AimsDid("web", "a.com", "x"))
    ensures AimsDid("web", "a.com", "x").ToString() != "did:aims:" + "web" + ":" + "a.com" + ":" + "x" + "\n"
  {
    var d := AimsDid("web", "a.com", "x");
    assert d.WellFormed() by {
      assert ValidMethod(d.methodName) && ValidOrganization(d.organization) && ValidSystemId(d.systemId);
    }
    ParseAccepts(d.ToString() + "\n", d);
  }

  /** `create` round-trips through `parse` exactly when its arguments lie in the grammar. */
  lemma CreateParsesIffValid(organization: string, systemId: string, methodName: string)
    ensures Parse(Create(organization, systemId, methodName).ToString()) == Success(Create(organization, systemId, methodName))
        <==> ValidMethod(methodName) && ValidOrganization(organization) && ValidSystemId(systemId)
  {
    var d := Create(organization, systemId, methodName);
    if d.WellFormed() {
      ParseAfterRender(d);
    }
  }

  /** `create` does not validate: an upper-case method yields an identifier `parse` rejects. */
  lemma CreateSkipsValidation()
    ensures Create("example.com", "agent", "WEB").methodName == "WEB"
    ensures Parse(Create("example.com", "agent", "WEB").ToString()).Failure?
  {
    var d := Create("example.com", "agent", "WEB");
    assert !ValidMethod(d.methodName) by {
      assert !IsMethodChar(d.methodName[0]);
    }
    var t := d.ToString();
    assert t[|t| - 1] == 't';

  }

  /** The resolution URL is the organization, a '/', and a tail that holds the system id. */
  lemma ResolveUrlShape(d: AimsDid)
    requires d.methodName == "web"
    ensures d.ResolveUrl() == Some("https://" + (d.organization + ['/'] + (".well-known/aims/" + d.systemId + ".json")))
  {
    var o, i := d.organization, d.systemId;
    var t := ".well-known/aims/" + i + ".json";
    assert "/.well-known/aims/" + i + ".json" == ['/'] + t by {
      assert "/.well-known/aims/" == ['/'] + ".well-known/aims/";
    }
    assert "https://" + o + "/.well-known/aims/" + i + ".json" == "https://" + (o + ("/.well-known/aims/" + i + ".json"));
    assert o + ['/'] + t == o + (['/'] + t);
  }

  /** Two well-formed `web` identifiers with the same resolution URL are the same identifier. */
  lemma ResolveUrlInjective(d1: AimsDid, d2: AimsDid)
    requires d1.WellFormed() && d2.WellFormed()
    requires d1.ResolveUrl().Some? && d1.ResolveUrl() == d2.ResolveUrl()
    ensures d1 == d2
  {
    var tail1 := ".well-known/aims/" + d1.systemId + ".json";
    var tail2 := ".well-known/aims/" + d2.systemId + ".json";
    ResolveUrlShape(d1);
    ResolveUrlShape(d2);
    Text.CancelPrefix("https://", d1.organization + ['/'] + tail1, d2.organization + ['/'] + tail2);
    assert '/' !in d1.organization && '/' !in d2.organization by {
      assert !IsOrganizationChar('/');
    }
    Text.SplitAtFirst(d1.organization, tail1, d2.organization, tail2, '/');
    Text.CancelSuffix(".well-known/aims/" + d1.systemId, ".well-known/aims/" + d2.systemId, ".json");
    Text.CancelPrefix(".well-known/aims/", d1.systemId, d2.systemId);
  }
}
