# gandi-dns-update, modelled in Dafny

A dynamic-DNS updater for the Gandi LiveDNS API. One run of `main.py`:

1. checks that it was given exactly one argument, the path of a JSON config file;
2. loads that file into a `Config` (`pat`, `domain`, `ttl`) and validates it with
   `Config.is_valid`;
3. asks `https://api.ipify.org` for the caller's public address and parses the answer;
4. `PUT`s that address as the apex (`@`) A record of the configured domain, with the
   configured TTL and a bearer token;
5. exits 0 when all of that succeeded and 1 otherwise.

Every step stops the run at its first failure. The model keeps that decision logic and
treats the file system, the two HTTP calls and the address parser as inputs.

Modules, one per component of `main.py`:

- `Wrappers` (`wrappers.dfy`): `Option` and `Result`.
- `JsonValues` (`json_value.dfy`): the value `json.load` returns, and Python's
  `isinstance(v, str)` and `isinstance(v, int)` on it. The second one also accepts booleans.
- `Configuration` (`config.dfy`): `Config`, the ordered guard chain of `is_valid`,
  `Config(**data)` and `load_config`.
- `Http` and `Resolver` (`resolver.dfy`): the outcome of an HTTP call, and `get_ip_address`.
- `Updater` (`updater.dfy`): the URL, header and body `update_domain` builds, and its
  status check.
- `Orchestrator` (`orchestrator.dfy`): `main` as a function of an `Environment`, returning
  the verdict and the list of external effects it requested, plus the exit code.

The code's annotations promise more than its checks enforce, and the model follows the
checks:

- `ttl: int` (main.py:36) is checked with `isinstance(self.ttl, int)` (main.py:45), which a
  JSON `true`/`false` passes, since Python's `bool` is a subclass of `int`. Such a TTL is
  then rejected by the `< 300` guard, not by the type guard (`BooleanTtlFailsBound`).
- `get_ip_address` is annotated `-> IPv4Address | None` (main.py:72), but it returns any
  address `ip_address` parses. For a non-IPv4 one it only logs a warning (main.py:94-95)
  and carries on. `Ipv6AddressAccepted` and `SuccessfulRunPutsConfiguredRecord` state this.

## Model

| member | source | states |
|---|---|---|
| `Configuration.Validate` | main.py:38-51 | the config is valid exactly when `pat` and `domain` are strings and `ttl` is a genuine integer of at least 300; any violation it reports is one the config really breaks |
| `Configuration.ValidateReportsFirstBroken` | main.py:39-50 | the guards run in the fixed order pat type, domain type, ttl type, ttl bound; guard k is reported exactly when the config breaks it and none before it |
| `Configuration.ValidIffNoGuardBroken` | main.py:38-51 | a config is valid iff it breaks none of the four guards |
| `Configuration.SmallTtlRejected` | main.py:48-50 | an integer TTL below 300 is rejected whatever `pat` and `domain` hold, and with string `pat`/`domain` the bound is the reported reason |
| `Configuration.BooleanTtlFailsBound` | main.py:45-50 | a boolean `ttl` passes the integer guard and is rejected by the bound |
| `Configuration.PatReportedFirst` | main.py:39-41 | a non-string `pat` is the reported violation even when the other fields are wrong too |
| `Configuration.Construct` | main.py:59 | `Config(**data)` succeeds iff the data is an object whose keys are exactly `pat`, `domain`, `ttl`, and the config then holds the file's values unchanged |
| `Configuration.LoadConfig` | main.py:54-69 | `load_config` returns only valid configs, equal to the file's contents; the result is `Unreadable` exactly when the file could not be read or parsed, `WrongShape` exactly when construction fails, the first broken guard (as `Validate` reports it) when validation fails, and the constructed config otherwise |
| `Configuration.LoadSucceedsIff` | main.py:56-69 | loading succeeds exactly on an object with keys `pat`, `domain`, `ttl` holding two strings and an integer of at least 300 |
| `Configuration.LoadRoundTrip` | main.py:56-69 | a valid config written as a file loads back as the same config |
| `Configuration.WrongKeysRejected` | main.py:56-63 | an object with a missing or an extra key is a load failure (`WrongShape`), not a crash |
| `Resolver.ResolveAddress` | main.py:72-98 | the resolver succeeds iff the echo service answers 200 and the body parses, returning the parsed address; no response, another status and an unparsable body each give their own error |
| `Resolver.BadStatusSkipsParsing` | main.py:83-85 | with any status but 200 the resolver fails, and its result does not depend on the parser |
| `Resolver.Ipv6AddressAccepted` | main.py:94-98 | a parsed IPv6 address is returned as the result, after only a warning |
| `Updater.UpdateUrl` | main.py:102 | the update URL is the API base, then the domain verbatim, then `/records/@/A` |
| `Updater.Authorization` | main.py:109 | the header is `Bearer ` followed by the token |
| `Updater.RecordBody` | main.py:110-113 | the body has exactly the keys `rrset_ttl` and `rrset_values`: the configured TTL and a one-element list of the address's text form |
| `Updater.BuildRequest` | main.py:101-113 | the request's URL names the configured domain, its header carries the configured token and its body holds the TTL and the address |
| `Updater.UpdateDomain` | main.py:101-124 | `update_domain` succeeds iff the provider answers the built request with 201; no response and any other status are failures |
| `Updater.UrlRoundTrip` | main.py:102 | the domain can be read back from its update URL |
| `Updater.UrlFromDomain` | main.py:102 | every URL that has the update-URL shape is the update URL of the domain read from it |
| `Updater.UrlInjective` | main.py:102 | two different domains never get the same update URL string |
| `Updater.AuthorizationRoundTrip` | main.py:109 | the token can be read back from the `Authorization` header |
| `Updater.ExampleUrlAndHeader` | main.py:102-109 | domain `example.com` and token `tok` give `https://api.gandi.net/v5/livedns/domains/example.com/records/@/A` and `Bearer tok` |
| `Updater.OnlyCreatedAccepted` | main.py:119-124 | an update is accepted iff the status is exactly 201; 200, 204 and every other code fail |
| `Orchestrator.RunScript` | main.py:11-29 | effects happen only after the argument check passes, in the order read config, get address, put record; a successful run has done all three |
| `Orchestrator.ExitCode` | main.py:135-140 | the exit status is 0 exactly when `main` succeeded, and 1 otherwise |
| `Orchestrator.UsageErrorStopsEverything` | main.py:13-15 | with an argument count other than one, `main` fails and requests no effect at all, so the config is never loaded; the exit status is 1 |
| `Orchestrator.LoadFailureStops` | main.py:18-20 | when the config does not load, the run fails after reading it and never contacts the echo service |
| `Orchestrator.ResolveFailureStops` | main.py:22-24 | when the address does not resolve, the run fails and never sends the update |
| `Orchestrator.UpdateReachedIff` | main.py:18-27 | the update is sent iff loading and resolving both succeeded, and it is the request built from the loaded config and the resolved address |
| `Orchestrator.SucceedsIffAllStepsSucceed` | main.py:11-29 | `main` returns true iff the argument count is right and loading, resolving and updating all succeed |
| `Orchestrator.SuccessfulRunPutsConfiguredRecord` | main.py:18-29 | after a successful run, the sent request names the file's domain, carries its token and TTL (an integer of at least 300) and the parsed address, IPv6 or not, and the provider answered 201 |
| `Orchestrator.ExampleRequest` | main.py:101-124 | the config `{pat: "tok", domain: "example.com", ttl: 300}` and address 203.0.113.7 give exactly the expected PUT, and the run succeeds iff the provider answers it with 201 |

## Left out

- Logging (`log`, `traceback.print_exc`, the timestamps from `datetime.now`): output only. The log line of each failure is represented by the error value the model returns in its place. The non-IPv4 warning (main.py:94-95) is the predicate `Resolver.WarnsNotIpv4`. The progress and success lines (main.py:55, 74, 97, 103, 123, 134-139) are dropped.
- `open` and `json.load`: the model starts from what they give, `None` when either raises. JSON syntax, duplicate keys and number parsing are not modelled. A float is kept as its literal and only its tag matters.
- `requests.get` and `requests.put`: the network. Each is an input function that gives either "no response" (any exception) or a status and body text. The encoding of the JSON body into bytes is not modelled; the body is kept as a JSON value. Neither call has a timeout (main.py:77, main.py:108); a call that never returns is not modelled, since every outcome here is either a response or an exception.
- `ipaddress.ip_address`: a library parser, passed in as a partial function that gives a tagged IPv4/IPv6 address with its canonical text. No address grammar is modelled.
- `sys.argv` and `exit`: `argv` is an input; only the argument-count test and the mapping from the result to exit code 0/1 are modelled.
- `Updater.BuildRequest` and `Updater.UpdateDomain` require a valid config. The only caller, `main`, passes a config that `load_config` has validated. The model does not say how an f-string would render non-string fields.
