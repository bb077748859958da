/** What an HTTP call made with `requests` gives the updater back. */
module Http {

  /** `NoResponse` stands for every exception `requests` raises (connection, DNS, timeout). */
  datatype HttpOutcome = NoResponse | Response(status: int, text: string)
}

/**
  The address resolver, `get_ip_address`: ask a public echo service for the caller's
  address and parse its answer.
 */
module Resolver {
  import opened Wrappers
  import opened Http

  /** The echo service the resolver asks. */
  const EchoUrl: string := "https://api.ipify.org"

  /** The only status the resolver accepts from the echo service. */
  const EchoOk: int := 200

  /**
    What `ipaddress.ip_address` returns: an `IPv4Address` or an `IPv6Address`, each
    carrying its canonical text form, `str(address)`.
   */
  datatype IpAddress = V4(text: string) | V6(text: string)

  /** Why `get_ip_address` returned `None`: the log line it wrote before doing so. */
  datatype ResolveError =
    | ServiceUnreachable                     // `requests.get` raised
    | BadStatus(status: int, text: string)   // any status but 200
    | NotAnAddress(text: string)             // `ip_address` raised

  /**
    `get_ip_address`, given the outcome of `GET EchoUrl` and the address parser
    (`None` where `ip_address` raises). The parser is consulted only on a 200 answer,
    and a parsed address is returned whatever its version.
   */
  function ResolveAddress(response: HttpOutcome, parse: string -> Option<IpAddress>): (r: Result<IpAddress, ResolveError>)
    ensures r.Ok? <==> response.Response? && response.status == EchoOk && parse(response.text).Some?
    ensures r.Ok? ==> r.value == parse(response.text).value
    ensures response.NoResponse? ==> r == Err(ServiceUnreachable)
    ensures response.Response? && response.status != EchoOk ==>
              r == Err(BadStatus(response.status, response.text))
    ensures response.Response? && response.status == EchoOk && parse(response.text).None? ==>
              r == Err(NotAnAddress(response.text))
  {
    match response
    case NoResponse => Err(ServiceUnreachable)
    case Response(status, text) =>
      if status != EchoOk then Err(BadStatus(status, text))
      else
        match parse(text)
        case None => Err(NotAnAddress(text))
        case Some(address) => Ok(address)
  }

  /** The resolved address is not IPv4, so the resolver logs its warning (and carries on). */
  predicate WarnsNotIpv4(r: Result<IpAddress, ResolveError>) {
    r.Ok? && !r.value.V4?
  }

  /**
    Any status other than 200 fails before the body is parsed: the outcome does not
    depend on the parser at all.
   */
  lemma BadStatusSkipsParsing(status: int, text: string, p: string -> Option<IpAddress>, q: string -> Option<IpAddress>)
    requires status != EchoOk
    ensures ResolveAddress(Response(status, text), p) == ResolveAddress(Response(status, text), q)
    ensures ResolveAddress(Response(status, text), p).Err?
  {
  }

  /**
    A syntactically valid IPv6 answer is returned as the resolved address: the
    resolver only warns about it.
   */
  lemma Ipv6AddressAccepted(text: string, parse: string -> Option<IpAddress>, shown: string)
    requires parse(text) == Some(V6(shown))
    ensures ResolveAddress(Response(EchoOk, text), parse) == Ok(V6(shown))
    ensures WarnsNotIpv4(ResolveAddress(Response(EchoOk, text), parse))
  {
  }
}
