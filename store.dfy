/** The manifest store client: publishing manifests to a registry and resolving and
    verifying them by DID (src/openattribution/aims/store.py). The HTTP round trip
    is a transport function from request to response, and decoding a response body
    into a manifest is a partial function supplied by the caller. */
module Store {
  import opened Outcomes
  import Text
  import Manifest

  /** The request verbs the client uses. */
  datatype Verb = Get | Post

  /** A request: verb, target URL and, for a publish, the manifest sent as its body. */
  datatype Request = Request(verb: Verb, url: string, payload: Option<Manifest.ManifestData>)

  /** A response: status code and body text. */
  datatype Response = Response(status: int, body: string)

  /** One request/response round trip with the registry. */
  type Transport = Request -> Response

  /** Decoding a response body into a manifest; `None` when it is not a valid manifest. */
  type Decoder = string -> Option<Manifest.ManifestData>

  /** Why an operation that got a response failed: a non-success status (with its
      body), or a success body that is not a manifest. A round trip that yields no
      response at all (connection error, timeout) is outside this model. */
  datatype StoreError = TransportError(status: int, body: string) | DecodeError(body: string)

  /** The status the registry answers when it has no manifest for a DID. */
  const NotFound: int := 404

  /** The statuses that count as success (2xx). */
  predicate IsSuccess(status: int) {
    200 <= status < 300
  }

  /** A store configuration; only `url` is required. */
  datatype ManifestStoreConfig = ManifestStoreConfig(url: string, name: string := "default", priority: int := 0)

  /** A configuration given only its URL is named "default" with priority 0. */
  lemma DefaultConfig(url: string)
    ensures ManifestStoreConfig(url).url == url
    ensures ManifestStoreConfig(url).name == "default"
    ensures ManifestStoreConfig(url).priority == 0
  {
  }

  /** A client bound to one registry. */
  class ManifestStore {
    var baseUrl: string
    var timeout: real

    /** The base URL is stored without its trailing '/' characters; the timeout is only stored. */
    constructor (baseUrl: string, timeout: real := 30.0)
      ensures this.baseUrl == Text.RStrip(baseUrl, '/')
      ensures this.baseUrl <= baseUrl
      ensures |this.baseUrl| == 0 || this.baseUrl[|this.baseUrl| - 1] != '/'
      ensures Text.RStrip(this.baseUrl, '/') == this.baseUrl
      ensures this.timeout == timeout
    {
      Text.RStripIdempotent(baseUrl, '/');
      this.baseUrl := Text.RStrip(baseUrl, '/');
      this.timeout := timeout;
    }

    /** The request `publish` sends: the manifest, posted to the collection endpoint. */
    function PublishRequest(m: Manifest.ManifestData): (req: Request)
      reads this
      ensures req.verb == Post && req.payload == Some(m)
      ensures req.url == baseUrl + "/manifests"
    {
      Request(Post, baseUrl + "/manifests", Some(m))
    }

    /** `publish`: the manifest's own DID string on a success status, whatever the
        response body; the transport error otherwise. */
    function Publish(m: Manifest.ManifestData, transport: Transport): (r: Result<string, StoreError>)
      reads this
      ensures r.Success? <==> IsSuccess(transport(PublishRequest(m)).status)
      ensures r.Success? ==> r.value == m.did
      ensures r.Failure? ==> r.error == TransportError(transport(PublishRequest(m)).status, transport(PublishRequest(m)).body)
    {
      var response := transport(PublishRequest(m));
      if IsSuccess(response.status) then Success(m.did)
      else Failure(TransportError(response.status, response.body))
    }

    /** The request `resolve` sends: a read of the DID's single-resource endpoint. */
    function ResolveRequest(did: string): (req: Request)
      reads this
      ensures req.verb == Get && req.payload == None
      ensures req.url == baseUrl + "/manifests/" + did
    {
      Request(Get, baseUrl + "/manifests/" + did, None)
    }

    /** `resolve`: absence on 404, the transport error on any other non-success status,
        and on success the decoded manifest or a decode error. */
    function Resolve(did: string, transport: Transport, decode: Decoder): (r: Result<Option<Manifest.ManifestData>, StoreError>)
      reads this
      ensures r == Success(None) <==> transport(ResolveRequest(did)).status == NotFound
      ensures (r.Failure? && r.error.TransportError?)
              <==> transport(ResolveRequest(did)).status != NotFound && !IsSuccess(transport(ResolveRequest(did)).status)
      ensures r.Failure? && r.error.TransportError? ==> r.error.status == transport(ResolveRequest(did)).status
      ensures r.Failure? && r.error.TransportError? ==> r.error.body == transport(ResolveRequest(did)).body
      ensures IsSuccess(transport(ResolveRequest(did)).status) && decode(transport(ResolveRequest(did)).body).None?
              ==> r == Failure(DecodeError(transport(ResolveRequest(did)).body))
      ensures (r.Success? && r.value.Some?)
              <==> IsSuccess(transport(ResolveRequest(did)).status) && decode(transport(ResolveRequest(did)).body).Some?
      ensures r.Success? && r.value.Some? ==> r.value == decode(transport(ResolveRequest(did)).body)
    {
      var response := transport(ResolveRequest(did));
      if response.status == NotFound then Success(None)
      else if !IsSuccess(response.status) then Failure(TransportError(response.status, response.body))
      else
        match decode(response.body)
        case Some(m) => Success(Some(m))
        case None => Failure(DecodeError(response.body))
    }

    /** `verify`: false when the DID resolves to nothing, the manifest's own verdict
        when it resolves to a manifest; errors of `resolve` propagate. */
    function Verify(did: string, transport: Transport, decode: Decoder, check: Manifest.SignatureCheck): (r: Result<bool, StoreError>)
      reads this
      ensures r.Failure? <==> Resolve(did, transport, decode).Failure?
      ensures r.Failure? ==> r.error == Resolve(did, transport, decode).error
      ensures Resolve(did, transport, decode) == Success(None) ==> r == Success(false)
      ensures Resolve(did, transport, decode).Success? && Resolve(did, transport, decode).value.Some?
              ==> r == Success(Resolve(did, transport, decode).value.value.Verify(check))
    {
      match Resolve(did, transport, decode)
      case Failure(e) => Failure(e)
      case Success(None) => Success(false)
      case Success(Some(m)) => Success(m.Verify(check))
    }
  }

  /** Under the stub signature strategy a DID verifies exactly when it resolves to a
      manifest, and fails to verify exactly when the registry answers 404. */
  lemma StubVerifyIffFound(s: ManifestStore, did: string, transport: Transport, decode: Decoder)
    ensures s.Verify(did, transport, decode, Manifest.AcceptAnySignature) == Success(true)
            <==> s.Resolve(did, transport, decode).Success? && s.Resolve(did, transport, decode).value.Some?
    ensures s.Verify(did, transport, decode, Manifest.AcceptAnySignature) == Success(false)
            <==> transport(s.ResolveRequest(did)).status == NotFound
  {
    var r := s.Resolve(did, transport, decode);
    if r.Success? && r.value.Some? {
      Manifest.StubVerifiesEverything(r.value.value);
    }
  }

  /** A DID the registry does not know resolves to absence, not an error, and does
      not verify, whatever the signature strategy. */
  lemma UnknownDidIsAbsent(s: ManifestStore, did: string, transport: Transport, decode: Decoder, check: Manifest.SignatureCheck)
    requires transport(s.ResolveRequest(did)).status == NotFound
    ensures s.Resolve(did, transport, decode) == Success(None)
    ensures s.Verify(did, transport, decode, check) == Success(false)
  {
  }

  /** The DID `publish` returns does not depend on what the registry answers, only on
      whether the status is a success. */
  lemma PublishIgnoresResponseBody(s: ManifestStore, m: Manifest.ManifestData, t1: Transport, t2: Transport)
    requires IsSuccess(t1(s.PublishRequest(m)).status) && IsSuccess(t2(s.PublishRequest(m)).status)
    ensures s.Publish(m, t1) == s.Publish(m, t2) == Success(m.did)
  {
  }
}
