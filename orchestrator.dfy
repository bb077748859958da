/**
  The entry point, `main`, and the exit status the script reports: check the argument
  count, then load the config, resolve the address and update the record, stopping at
  the first step that fails.
 */
module Orchestrator {
  import opened Wrappers
  import opened JsonValues
  import opened Http
  import opened Configuration
  import opened Resolver
  import opened Updater

  /**
    Everything `main` learns from outside the model: the command line (`sys.argv`, the
    script's own name first), what opening and parsing a config path gives, what the
    echo service answers, how `ip_address` parses a text, and what the provider answers
    a `PUT`.
   */
  datatype Environment = Environment(
    argv: seq<string>,
    readConfig: string -> Option<JsonValue>,
    get: string -> HttpOutcome,
    parseIp: string -> Option<IpAddress>,
    put: UpdateRequest -> HttpOutcome)

  /** A request to the outside world: reading the config file, the `GET`, the `PUT`. */
  datatype Effect = ReadConfig(path: string) | Get(url: string) | Put(request: UpdateRequest)

  /** The value `main` returns, and the effects it requested on the way, in order. */
  datatype Report = Report(succeeded: bool, effects: seq<Effect>)

  /**
    `main`. A run that gets past the argument check first reads the config named by the
    only argument; every run that succeeds has read it, asked the echo service and
    put the record, in that order.
   */
  function RunScript(env: Environment): (r: Report)
    ensures |r.effects| <= 3
    ensures r.effects != [] <==> |env.argv| == 2
    ensures r.effects != [] ==> r.effects[0] == ReadConfig(env.argv[1])
    ensures |r.effects| >= 2 ==> r.effects[1] == Get(EchoUrl)
    ensures |r.effects| == 3 ==> r.effects[2].Put?
    ensures r.succeeded ==> |r.effects| == 3
  {
    if |env.argv| != 2 then Report(false, [])
    else
      var path := env.argv[1];
      match LoadConfig(env.readConfig(path))
      case Err(_) => Report(false, [ReadConfig(path)])
      case Ok(config) =>
        match ResolveAddress(env.get(EchoUrl), env.parseIp)
        case Err(_) => Report(false, [ReadConfig(path), Get(EchoUrl)])
        case Ok(address) =>
          var request := BuildRequest(address, config);
          Report(UpdateDomain(address, config, env.put).Ok?, [ReadConfig(path), Get(EchoUrl), Put(request)])
  }

  /** The exit status of the script: 0 when `main` succeeded, 1 otherwise. */
  function ExitCode(succeeded: bool): (code: int)
    ensures code == 0 <==> succeeded
    ensures code == 0 || code == 1
  {
    if succeeded then 0 else 1
  }

  // ---------------------------------------------------------------------------
  // Properties of the run

  /** With any argument count but one, the run fails before it touches anything. */
  lemma UsageErrorStopsEverything(env: Environment)
    requires |env.argv| != 2
    ensures RunScript(env) == Report(false, [])
    ensures ExitCode(RunScript(env).succeeded) == 1
  {
  }

  /** A config that does not load ends the run: the address is never asked for. */
  lemma LoadFailureStops(env: Environment)
    requires |env.argv| == 2
    requires LoadConfig(env.readConfig(env.argv[1])).Err?
    ensures RunScript(env) == Report(false, [ReadConfig(env.argv[1])])
  {
  }

  /** An address that does not resolve ends the run: the record is never put. */
  lemma ResolveFailureStops(env: Environment)
    requires |env.argv| == 2
    requires LoadConfig(env.readConfig(env.argv[1])).Ok?
    requires ResolveAddress(env.get(EchoUrl), env.parseIp).Err?
    ensures RunScript(env) == Report(false, [ReadConfig(env.argv[1]), Get(EchoUrl)])
  {
  }

  /**
    The record is put exactly when the config loaded and the address resolved, and the
    request carries the loaded config and the resolved address.
   */
  lemma UpdateReachedIff(env: Environment)
    ensures |RunScript(env).effects| == 3 <==>
              |env.argv| == 2 && LoadConfig(env.readConfig(env.argv[1])).Ok? &&
              ResolveAddress(env.get(EchoUrl), env.parseIp).Ok?
    ensures |RunScript(env).effects| == 3 ==>
              RunScript(env).effects[2] ==
                Put(BuildRequest(ResolveAddress(env.get(EchoUrl), env.parseIp).value,
                                 LoadConfig(env.readConfig(env.argv[1])).value))
  {
  }

  /** `main` returns `True` exactly when loading, resolving and updating all succeed. */
  lemma SucceedsIffAllStepsSucceed(env: Environment)
    ensures RunScript(env).succeeded <==>
              && |env.argv| == 2
              && LoadConfig(env.readConfig(env.argv[1])).Ok?
              && ResolveAddress(env.get(EchoUrl), env.parseIp).Ok?
              && UpdateDomain(ResolveAddress(env.get(EchoUrl), env.parseIp).value,
                              LoadConfig(env.readConfig(env.argv[1])).value, env.put).Ok?
  {
  }

  /**
    A successful run has put a record whose URL names the configured domain, whose
    header carries the configured token and whose body holds the configured TTL (at
    least 300) and the resolved address, IPv6 or not.
   */
  lemma SuccessfulRunPutsConfiguredRecord(env: Environment)
    requires RunScript(env).succeeded
    ensures var file := env.readConfig(env.argv[1]);
            var address := env.parseIp(env.get(EchoUrl).text);
            var request := RunScript(env).effects[2].request;
            && file.Some? && address.Some?
            && file.value.JObject? && file.value.fields.Keys == FieldNames
            && DomainOfUrl(request.url) == Some(file.value.fields["domain"].str)
            && BearerToken(request.authorization) == Some(file.value.fields["pat"].str)
            && request.body.fields["rrset_ttl"] == file.value.fields["ttl"]
            && file.value.fields["ttl"].JInt? && file.value.fields["ttl"].i >= MinTtl
            && request.body.fields["rrset_values"] == JArray([JString(address.value.text)])
            && env.put(request).Response? && env.put(request).status == Created
  {
  }

  /**
    An example: token "tok", domain "example.com", TTL 300 and the echoed
    address 203.0.113.7 give this exact request, and the run succeeds iff the provider
    answers it with 201.
   */
  lemma ExampleRequest(env: Environment, status: int, text: string)
    requires env.argv == ["main.py", "config.json"]
    requires env.readConfig("config.json") ==
               Some(JObject(map["pat" := JString("tok"), "domain" := JString("example.com"), "ttl" := JInt(300)]))
    requires env.get(EchoUrl) == Response(200, "203.0.113.7")
    requires env.parseIp("203.0.113.7") == Some(V4("203.0.113.7"))
    requires env.put(ExpectedRequest()) == Response(status, text)
    ensures RunScript(env).effects[2] == Put(ExpectedRequest())
    ensures RunScript(env).succeeded <==> status == 201
  {
    var data := JObject(map["pat" := JString("tok"), "domain" := JString("example.com"), "ttl" := JInt(300)]);
    assert data.fields.Keys == FieldNames;
    var config := Config(JString("tok"), JString("example.com"), JInt(300));
    assert LoadConfig(Some(data)) == Ok(config);
    assert ResolveAddress(env.get(EchoUrl), env.parseIp) == Ok(V4("203.0.113.7"));
    ExampleUrlAndHeader();
    assert BuildRequest(V4("203.0.113.7"), config) == ExpectedRequest();
  }

  /** The request `ExampleRequest` expects, written out literally. */
  function ExpectedRequest(): UpdateRequest {
    UpdateRequest(
      "https://api.gandi.net/v5/livedns/domains/example.com/records/@/A",
      "Bearer tok",
      JObject(map["rrset_ttl" := JInt(300), "rrset_values" := JArray([JString("203.0.113.7")])]))
  }
}
