/**
  The record updater, `update_domain`: replace the A record at the apex of the
  configured zone with the resolved address, through the DNS provider's LiveDNS API.
 */
module Updater {
  import opened Wrappers
  import opened JsonValues
  import opened Http
  import opened Configuration
  import opened Resolver

  /** The part of the update URL before the domain. */
  const ApiBase: string := "https://api.gandi.net/v5/livedns/domains/"

  /** The part of the update URL after the domain: the apex (`@`) A record set. */
  const ApexARecord: string := "/records/@/A"

  /** The scheme word in front of the token in the `Authorization` header. */
  const BearerPrefix: string := "Bearer "

  /** The only status the updater accepts from the provider. */
  const Created: int := 201

  /** The `PUT` that `update_domain` hands to `requests.put`. */
  datatype UpdateRequest = UpdateRequest(url: string, authorization: string, body: JsonValue)

  /** The update URL for `domain`: the base, then the domain verbatim, then the apex A record. */
  function UpdateUrl(domain: string): (url: string)
    ensures |url| == |ApiBase| + |domain| + |ApexARecord|
    ensures url[..|ApiBase|] == ApiBase
    ensures url[|ApiBase|..|ApiBase| + |domain|] == domain
    ensures url[|ApiBase| + |domain|..] == ApexARecord
  {
    ApiBase + domain + ApexARecord
  }

  /** The domain an update URL targets, or `None` for a URL that is not an update URL. */
  function DomainOfUrl(url: string): (domain: Option<string>)
    ensures domain.Some? ==> |url| == |ApiBase| + |domain.value| + |ApexARecord|
  {
    if |url| >= |ApiBase| + |ApexARecord|
       && url[..|ApiBase|] == ApiBase
       && url[|url| - |ApexARecord|..] == ApexARecord
    then Some(url[|ApiBase|..|url| - |ApexARecord|])
    else None
  }

  /** The value of the `Authorization` header for the token `pat`. */
  function Authorization(pat: string): (header: string)
    ensures |header| == |BearerPrefix| + |pat|
    ensures header[..|BearerPrefix|] == BearerPrefix && header[|BearerPrefix|..] == pat
  {
    BearerPrefix + pat
  }

  /** The token a bearer `Authorization` header carries, or `None` for another scheme. */
  function BearerToken(header: string): (pat: Option<string>)
    ensures pat.Some? ==> |header| == |BearerPrefix| + |pat.value|
  {
    if |header| >= |BearerPrefix| && header[..|BearerPrefix|] == BearerPrefix
    then Some(header[|BearerPrefix|..])
    else None
  }

  /** The JSON body: the configured TTL and a one-element list holding the address's text form. */
  function RecordBody(ttl: JsonValue, address: IpAddress): (body: JsonValue)
    ensures body.JObject? && body.fields.Keys == {"rrset_ttl", "rrset_values"}
    ensures body.fields["rrset_ttl"] == ttl
    ensures body.fields["rrset_values"] == JArray([JString(address.text)])
  {
    JObject(map["rrset_ttl" := ttl, "rrset_values" := JArray([JString(address.text)])])
  }

  /**
    The request `update_domain` builds for a loaded (so valid) config: the URL of the
    configured domain's apex A record, the bearer header of its token, and the body.
   */
  function BuildRequest(address: IpAddress, config: Config): (req: UpdateRequest)
    requires IsValid(config)
    ensures DomainOfUrl(req.url) == Some(config.domain.str)
    ensures BearerToken(req.authorization) == Some(config.pat.str)
    ensures req.body == RecordBody(config.ttl, address)
  {
    UpdateRequest(UpdateUrl(config.domain.str), Authorization(config.pat.str), RecordBody(config.ttl, address))
  }

  /** Why `update_domain` returned `False`: the log line it wrote before doing so. */
  datatype UpdateError =
    | ProviderUnreachable                    // `requests.put` raised
    | Rejected(status: int, text: string)    // any status but 201

  /**
    `update_domain`, given `put`, the outcome `requests.put` gives for a request. It
    succeeds exactly when the provider answers the built request with 201.
   */
  function UpdateDomain(address: IpAddress, config: Config, put: UpdateRequest -> HttpOutcome): (r: Result<(), UpdateError>)
    requires IsValid(config)
    ensures var answer := put(BuildRequest(address, config));
              && (r.Ok? <==> answer.Response? && answer.status == Created)
              && (answer.NoResponse? ==> r == Err(ProviderUnreachable))
              && (answer.Response? && answer.status != Created ==> r == Err(Rejected(answer.status, answer.text)))
  {
    match put(BuildRequest(address, config))
    case NoResponse => Err(ProviderUnreachable)
    case Response(status, text) =>
      if status != Created then Err(Rejected(status, text)) else Ok(())
  }

  // ---------------------------------------------------------------------------
  // Properties of the request

  /** The domain can be read back from its update URL. */
  lemma UrlRoundTrip(domain: string)
    ensures DomainOfUrl(UpdateUrl(domain)) == Some(domain)
  {
  }

  /** Every update URL is built from the domain it targets: `DomainOfUrl` is a left inverse of `UpdateUrl`. */
  lemma UrlFromDomain(url: string)
    requires DomainOfUrl(url).Some?
    ensures UpdateUrl(DomainOfUrl(url).value) == url
  {
  }

  /** Two different domains never share an update URL string. */
  lemma UrlInjective(d: string, e: string)
    requires UpdateUrl(d) == UpdateUrl(e)
    ensures d == e
  {
  }

  /** The token can be read back from its `Authorization` header. */
  lemma AuthorizationRoundTrip(pat: string)
    ensures BearerToken(Authorization(pat)) == Some(pat)
  {
  }

  /** An example: domain "example.com" and token "tok" give this URL and this header. */
  lemma ExampleUrlAndHeader()
    ensures UpdateUrl("example.com") == "https://api.gandi.net/v5/livedns/domains/example.com/records/@/A"
    ensures Authorization("tok") == "Bearer tok"
  {
  }

  /** A response counts as success only with status 201: 200, 204 and every other code are failures. */
  lemma OnlyCreatedAccepted(address: IpAddress, config: Config, put: UpdateRequest -> HttpOutcome, status: int, text: string)
    requires IsValid(config)
    requires put(BuildRequest(address, config)) == Response(status, text)
    ensures UpdateDomain(address, config, put).Ok? <==> status == Created
  {
  }
}
