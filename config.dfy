/**
  The configuration loader: the `Config` dataclass, its `is_valid` guard chain and
  `load_config`, which turns the parsed configuration file into a `Config` or nothing.
 */
module Configuration {
  import opened Wrappers
  import opened JsonValues

  /** The smallest TTL, in seconds, that `is_valid` lets through. */
  const MinTtl: int := 300

  /** The keyword arguments the `Config` dataclass takes, and so the keys a config file must have. */
  const FieldNames: set<string> := {"pat", "domain", "ttl"}

  /**
    A `Config` instance. The dataclass does not enforce its annotations, so each field
    holds whatever JSON value the file had under that key.
   */
  datatype Config = Config(pat: JsonValue, domain: JsonValue, ttl: JsonValue)

  /** The guards of `is_valid`, each named after the condition it reports. */
  datatype Violation = PatNotString | DomainNotString | TtlNotInteger | TtlBelowMinimum

  /** The order in which `is_valid` tries its guards. */
  const GuardOrder: seq<Violation> := [PatNotString, DomainNotString, TtlNotInteger, TtlBelowMinimum]

  /** Whether `c` breaks guard `v`, judged on that guard alone. */
  predicate Breaks(c: Config, v: Violation) {
    match v
    case PatNotString => !IsStr(c.pat)
    case DomainNotString => !IsStr(c.domain)
    case TtlNotInteger => !IsInt(c.ttl)
    case TtlBelowMinimum => IsInt(c.ttl) && IntValue(c.ttl) < MinTtl
  }

  /**
    `Config.is_valid`: the guard whose message is logged, or `None` when the config is valid.
    A valid config holds two strings and a genuine integer (not a boolean) of at least 300.
   */
  function Validate(c: Config): (r: Option<Violation>)
    ensures r == None <==> c.pat.JString? && c.domain.JString? && c.ttl.JInt? && c.ttl.i >= MinTtl
    ensures r.Some? ==> Breaks(c, r.value)
  {
    if !IsStr(c.pat) then Some(PatNotString)
    else if !IsStr(c.domain) then Some(DomainNotString)
    else if !IsInt(c.ttl) then Some(TtlNotInteger)
    else if IntValue(c.ttl) < MinTtl then Some(TtlBelowMinimum)
    else None
  }

  /** `Config.is_valid()` returned `True`. */
  predicate IsValid(c: Config) {
    Validate(c).None?
  }

  /** The configuration file whose contents describe `c`. */
  function ToJson(c: Config): (data: JsonValue)
    ensures data.JObject? && data.fields.Keys == FieldNames
  {
    JObject(map["pat" := c.pat, "domain" := c.domain, "ttl" := c.ttl])
  }

  /**
    `Config(**data)`: a mapping whose keys are exactly the dataclass's fields constructs a
    config holding its values unchanged; anything else (not an object, a key missing, an
    extra key) raises `TypeError`.
   */
  function Construct(data: JsonValue): (r: Option<Config>)
    ensures r.Some? <==> data.JObject? && data.fields.Keys == FieldNames
    ensures r.Some? ==> ToJson(r.value) == data
  {
    if data.JObject? && data.fields.Keys == FieldNames then
      var c := Config(data.fields["pat"], data.fields["domain"], data.fields["ttl"]);
      Some(c)
    else
      None
  }

  /** Why `load_config` returned `None`: the log line it wrote before doing so. */
  datatype LoadError =
    | Unreadable               // `open` or `json.load` raised
    | WrongShape               // `Config(**data)` raised
    | Invalid(violation: Violation)

  /**
    `load_config`. `file` is what opening and parsing the file at the path produced:
    `None` when either raised.
   */
  function LoadConfig(file: Option<JsonValue>): (r: Result<Config, LoadError>)
    ensures r.Ok? ==> IsValid(r.value) && file == Some(ToJson(r.value))
    ensures r == Err(Unreadable) <==> file.None?
    ensures r == Err(WrongShape) <==> file.Some? && Construct(file.value).None?
    ensures file.Some? && Construct(file.value).Some? && !IsValid(Construct(file.value).value) ==>
              r == Err(Invalid(Validate(Construct(file.value).value).value))
    ensures file.Some? && Construct(file.value).Some? && IsValid(Construct(file.value).value) ==>
              r == Ok(Construct(file.value).value)
    ensures r.Err? && r.error.Invalid? ==> Breaks(Construct(file.value).value, r.error.violation)
  {
    match file
    case None => Err(Unreadable)
    case Some(data) =>
      match Construct(data)
      case None => Err(WrongShape)
      case Some(c) =>
        match Validate(c)
        case Some(v) => Err(Invalid(v))
        case None => Ok(c)
  }

  // ---------------------------------------------------------------------------
  // Properties of the guard chain

  /**
    The reported violation is the first guard, in `GuardOrder`, that the config breaks:
    `Validate` reports guard `k` exactly when `k` is broken and no earlier one is.
   */
  lemma ValidateReportsFirstBroken(c: Config, k: nat)
    requires k < |GuardOrder|
    ensures Validate(c) == Some(GuardOrder[k]) <==>
              Breaks(c, GuardOrder[k]) && forall j :: 0 <= j < k ==> !Breaks(c, GuardOrder[j])
  {
    if k == 0 {
    } else if k == 1 {
      assert GuardOrder[0] == PatNotString;
    } else if k == 2 {
      assert GuardOrder[0] == PatNotString && GuardOrder[1] == DomainNotString;
    } else {
      assert GuardOrder[0] == PatNotString && GuardOrder[1] == DomainNotString;
      assert GuardOrder[2] == TtlNotInteger;
    }
  }

  /** A config is valid exactly when it breaks none of the guards. */
  lemma ValidIffNoGuardBroken(c: Config)
    ensures IsValid(c) <==> forall v :: !Breaks(c, v)
  {
  }

  /** A TTL below 300 is rejected whatever `pat` and `domain` hold. */
  lemma SmallTtlRejected(c: Config)
    requires c.ttl.JInt? && c.ttl.i < MinTtl
    ensures !IsValid(c)
    ensures IsStr(c.pat) && IsStr(c.domain) ==> Validate(c) == Some(TtlBelowMinimum)
  {
  }

  /**
    A boolean `ttl` passes the integer guard (Python's `bool` is an `int`) and is then
    rejected by the bound, since it counts as 0 or 1.
   */
  lemma BooleanTtlFailsBound(c: Config)
    requires IsStr(c.pat) && IsStr(c.domain) && c.ttl.JBool?
    ensures !Breaks(c, TtlNotInteger)
    ensures Validate(c) == Some(TtlBelowMinimum)
  {
  }

  /** A non-string `pat` is what gets reported, even when every other field is wrong too. */
  lemma PatReportedFirst(c: Config)
    requires !IsStr(c.pat)
    ensures Validate(c) == Some(PatNotString)
  {
  }

  // ---------------------------------------------------------------------------
  // Properties of load_config

  /** `load_config` succeeds exactly on a well-shaped object whose config is valid. */
  lemma LoadSucceedsIff(file: Option<JsonValue>)
    ensures LoadConfig(file).Ok? <==>
              file.Some? && file.value.JObject? && file.value.fields.Keys == FieldNames &&
              IsStr(file.value.fields["pat"]) && IsStr(file.value.fields["domain"]) &&
              file.value.fields["ttl"].JInt? && file.value.fields["ttl"].i >= MinTtl
  {
  }

  /** Writing a valid config to a file and loading it back yields the same config. */
  lemma LoadRoundTrip(c: Config)
    requires IsValid(c)
    ensures LoadConfig(Some(ToJson(c))) == Ok(c)
  {
  }

  /** An object with a key missing or an extra key is a load failure, not a crash. */
  lemma WrongKeysRejected(fields: map<string, JsonValue>)
    requires fields.Keys != FieldNames
    ensures LoadConfig(Some(JObject(fields))) == Err(WrongShape)
  {
  }
}
