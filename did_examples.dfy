/** The identifier cases of tests/test_did.py, stated over the model. */
module DidExamples {
  import opened Outcomes
  import opened Did

  /** Parsing "did:aims:web:example.com:shopping-assistant". */
  lemma ParseWebExample()
    ensures Parse("did:aims:" + "web" + ":" + "example.com" + ":" + "shopping-assistant")
            == Success(AimsDid("web", "example.com", "shopping-assistant"))
  {
    var web := AimsDid("web", "example.com", "shopping-assistant");
    assert web.WellFormed() by {
      assert ValidMethod(web.methodName) && ValidOrganization(web.organization) && ValidSystemId(web.systemId);
    }
    ParseAfterRender(web);
  }

  /** Parsing "did:aims:key:z6MkTest:agent", a `key` identifier without a resolution URL. */
  lemma ParseKeyExample()
    ensures Parse("did:aims:" + "key" + ":" + "z6MkTest" + ":" + "agent") == Success(AimsDid("key", "z6MkTest", "agent"))
    ensures AimsDid("key", "z6MkTest", "agent").ResolveUrl() == None
  {
    var key := AimsDid("key", "z6MkTest", "agent");
    assert key.WellFormed() by {
      assert ValidMethod(key.methodName) && ValidOrganization(key.organization) && ValidSystemId(key.systemId);
    }
    ParseAfterRender(key);
  }

  /** Rejecting a text that is no DID and a DID of another scheme. */
  lemma ParseInvalidExamples()
    ensures Parse("not-a-did") == Failure(FormatError("Invalid AIMS DID format: not-a-did"))
    ensures Parse("did:web:example.com:agent").Failure?
  {
    assert "not-a-did"[..|Scheme|] != Scheme by { assert "not-a-did"[0] != Scheme[0]; }
    assert InvalidFormatMessage + "not-a-did" == "Invalid AIMS DID format: not-a-did";
    assert "did:web:example.com:agent"[..|Scheme|] != Scheme by {
      assert "did:web:example.com:agent"[4] != Scheme[4];
    }
  }

  /** `create` with the default method and with an explicit one. */
  lemma CreateExamples()
    ensures Create("example.com", "my-agent") == AimsDid("web", "example.com", "my-agent")
    ensures Create("z6MkKey", "secure-agent", "key") == AimsDid("key", "z6MkKey", "secure-agent")
  {
  }

  /** The resolution URL of the `web` identifier example.com/agent. */
  lemma ResolveUrlWebExample()
    ensures AimsDid("web", "example.com", "agent").ResolveUrl()
            == Some("https://" + "example.com" + "/.well-known/aims/" + "agent" + ".json")
  {
  }
}
