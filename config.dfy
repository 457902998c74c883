/**
 * The application configuration: the record YAML decodes into, the global
 * that holds it, and the defaults `initFromString` fills in for omitted
 * addresses, ports, timeouts and the database DSN. YAML decoding itself is
 * abstract: it is given as its outcome.
 */
module Config {
  import opened Wrappers

  const ErrGlobalConfig: string := "global configuration is not initialized"

  const DefaultPublicAPIAddress: string := "127.0.0.1"
  const DefaultPublicAPIPort: int := 63100
  const DefaultServiceAPIAddress: string := "127.0.0.1"
  const DefaultServiceAPIPort: int := 63101
  const DefaultHTTPReadTimeout: int := 60
  const DefaultHTTPWriteTimeout: int := 120
  const DefaultHTTPIdleTimeout: int := 240
  const DefaultSQliteDSN: string := "positions.db"

  // ---------------------------------------------------------------- the record

  datatype LogConfig = LogConfig(file: string, useStdout: bool, debug: bool)

  /** `PublicAPIServerConfig` and `ServiceAPIServerConfig`, which have the same fields. */
  datatype ServerConfig = ServerConfig(serverAddress: string, serverPort: int, readTimeout: int,
                                       writeTimeout: int, idleTimeout: int)

  datatype DBConfig = DBConfig(dsn: string)

  datatype SentryConfig = SentryConfig(dsn: string, environment: string, enabled: bool)

  /** The value of an `AppConfig`. */
  datatype AppConfigValue = AppConfigValue(log: LogConfig, publicAPI: ServerConfig, db: DBConfig,
                                           serviceAPI: ServerConfig, sentry: SentryConfig)

  const ZeroServer: ServerConfig := ServerConfig("", 0, 0, 0, 0)

  /** `AppConfig{}`, which is also what YAML decodes an empty document into. */
  const ZeroConfig: AppConfigValue :=
    AppConfigValue(LogConfig("", false, false), ZeroServer, DBConfig(""), ZeroServer, SentryConfig("", "", false))

  // ---------------------------------------------------------------- the defaulted fields

  /** The keys of `defaultStringParameters`: the fields a pointer in it designates. */
  datatype StringSlot = PublicAPIAddress | ServiceAPIAddress | DBDSN

  /** The keys of `defaultIntParameters`. */
  datatype IntSlot =
    | PublicAPIPort | PublicAPIReadTimeout | PublicAPIWriteTimeout | PublicAPIIdleTimeout
    | ServiceAPIPort | ServiceAPIReadTimeout | ServiceAPIWriteTimeout | ServiceAPIIdleTimeout

  function StringAt(v: AppConfigValue, s: StringSlot): string
  {
    match s
    case PublicAPIAddress => v.publicAPI.serverAddress
    case ServiceAPIAddress => v.serviceAPI.serverAddress
    case DBDSN => v.db.dsn
  }

  function WithString(v: AppConfigValue, s: StringSlot, x: string): AppConfigValue
  {
    match s
    case PublicAPIAddress => v.(publicAPI := v.publicAPI.(serverAddress := x))
    case ServiceAPIAddress => v.(serviceAPI := v.serviceAPI.(serverAddress := x))
    case DBDSN => v.(db := DBConfig(x))
  }

  function IntAt(v: AppConfigValue, s: IntSlot): int
  {
    match s
    case PublicAPIPort => v.publicAPI.serverPort
    case PublicAPIReadTimeout => v.publicAPI.readTimeout
    case PublicAPIWriteTimeout => v.publicAPI.writeTimeout
    case PublicAPIIdleTimeout => v.publicAPI.idleTimeout
    case ServiceAPIPort => v.serviceAPI.serverPort
    case ServiceAPIReadTimeout => v.serviceAPI.readTimeout
    case ServiceAPIWriteTimeout => v.serviceAPI.writeTimeout
    case ServiceAPIIdleTimeout => v.serviceAPI.idleTimeout
  }

  function WithServerInt(c: ServerConfig, s: IntSlot, x: int): ServerConfig
  {
    match s
    case PublicAPIPort => c.(serverPort := x)
    case ServiceAPIPort => c.(serverPort := x)
    case PublicAPIReadTimeout => c.(readTimeout := x)
    case ServiceAPIReadTimeout => c.(readTimeout := x)
    case PublicAPIWriteTimeout => c.(writeTimeout := x)
    case ServiceAPIWriteTimeout => c.(writeTimeout := x)
    case PublicAPIIdleTimeout => c.(idleTimeout := x)
    case ServiceAPIIdleTimeout => c.(idleTimeout := x)
  }

  predicate IsPublic(s: IntSlot)
  {
    s.PublicAPIPort? || s.PublicAPIReadTimeout? || s.PublicAPIWriteTimeout? || s.PublicAPIIdleTimeout?
  }

  function WithInt(v: AppConfigValue, s: IntSlot, x: int): AppConfigValue
  {
    if IsPublic(s) then v.(publicAPI := WithServerInt(v.publicAPI, s, x))
    else v.(serviceAPI := WithServerInt(v.serviceAPI, s, x))
  }

  /** The values of `defaultStringParameters`. */
  function DefaultString(s: StringSlot): (d: string)
    ensures d != ""
  {
    match s
    case PublicAPIAddress => DefaultPublicAPIAddress
    case ServiceAPIAddress => DefaultServiceAPIAddress
    case DBDSN => DefaultSQliteDSN
  }

  /** The values of `defaultIntParameters`. */
  function DefaultInt(s: IntSlot): (d: int)
    ensures d > 0
  {
    match s
    case PublicAPIPort => DefaultPublicAPIPort
    case ServiceAPIPort => DefaultServiceAPIPort
    case PublicAPIReadTimeout => DefaultHTTPReadTimeout
    case ServiceAPIReadTimeout => DefaultHTTPReadTimeout
    case PublicAPIWriteTimeout => DefaultHTTPWriteTimeout
    case ServiceAPIWriteTimeout => DefaultHTTPWriteTimeout
    case PublicAPIIdleTimeout => DefaultHTTPIdleTimeout
    case ServiceAPIIdleTimeout => DefaultHTTPIdleTimeout
  }

  /** What `setDefaultStringValue` leaves: the default in place of "", anything else kept. */
  function DefaultedString(current: string, default: string): (r: string)
    ensures current == "" ==> r == default
    ensures current != "" ==> r == current
  {
    if current == "" then default else current
  }

  /** What `setDefaultIntValue` leaves: the default in place of zero or a negative, a positive kept. */
  function DefaultedInt(current: int, default: int): (r: int)
    ensures current <= 0 ==> r == default
    ensures current > 0 ==> r == current
  {
    if current <= 0 then default else current
  }

  function DefaultedServer(c: ServerConfig, address: string, port: int): ServerConfig
  {
    ServerConfig(DefaultedString(c.serverAddress, address),
                 DefaultedInt(c.serverPort, port),
                 DefaultedInt(c.readTimeout, DefaultHTTPReadTimeout),
                 DefaultedInt(c.writeTimeout, DefaultHTTPWriteTimeout),
                 DefaultedInt(c.idleTimeout, DefaultHTTPIdleTimeout))
  }

  /** The configuration `initFromString` leaves once every default is applied. */
  function Defaulted(v: AppConfigValue): AppConfigValue
  {
    v.(publicAPI := DefaultedServer(v.publicAPI, DefaultPublicAPIAddress, DefaultPublicAPIPort),
       db := DBConfig(DefaultedString(v.db.dsn, DefaultSQliteDSN)),
       serviceAPI := DefaultedServer(v.serviceAPI, DefaultServiceAPIAddress, DefaultServiceAPIPort))
  }

  // ---------------------------------------------------------------- the mutable record and the global

  /** An `*AppConfig`, whose fields the defaulting loops write through pointers. */
  class AppConfig {
    var log: LogConfig
    var publicAPI: ServerConfig
    var db: DBConfig
    var serviceAPI: ServerConfig
    var sentry: SentryConfig

    constructor (v: AppConfigValue)
      ensures Value() == v
    {
      log := v.log;
      publicAPI := v.publicAPI;
      db := v.db;
      serviceAPI := v.serviceAPI;
      sentry := v.sentry;
    }

    function Value(): AppConfigValue
      reads this
    {
      AppConfigValue(log, publicAPI, db, serviceAPI, sentry)
    }

    /** `setDefaultStringValue(&field, default)` for the field `slot` designates. */
    method SetDefaultStringValue(slot: StringSlot, default: string)
      modifies this
      ensures Value() == WithString(old(Value()), slot, DefaultedString(StringAt(old(Value()), slot), default))
    {
      match slot {
        case PublicAPIAddress =>
          if publicAPI.serverAddress == "" {
            publicAPI := publicAPI.(serverAddress := default);
          }
        case ServiceAPIAddress =>
          if serviceAPI.serverAddress == "" {
            serviceAPI := serviceAPI.(serverAddress := default);
          }
        case DBDSN =>
          if db.dsn == "" {
            db := DBConfig(default);
          }
      }
    }

    /** `setDefaultIntValue(&field, default)` for the field `slot` designates. */
    method SetDefaultIntValue(slot: IntSlot, default: int)
      modifies this
      ensures Value() == WithInt(old(Value()), slot, DefaultedInt(IntAt(old(Value()), slot), default))
    {
      if IntAt(Value(), slot) <= 0 {
        if IsPublic(slot) {
          publicAPI := WithServerInt(publicAPI, slot, default);
        } else {
          serviceAPI := WithServerInt(serviceAPI, slot, default);
        }
      }
    }
  }

  /** The package-level `Config` pointer. */
  class Globals {
    var config: AppConfig?

    constructor ()
      ensures config == null
    {
      config := null;
    }
  }

  /** `CheckConfig`: an error exactly when no configuration has been installed. */
  function CheckConfig(g: Globals): (err: Option<Error>)
    reads g
    ensures err.Some? <==> g.config == null
    ensures err.Some? ==> err.value == Error(ErrGlobalConfig)
  {
    if g.config == null then Some(Error(ErrGlobalConfig)) else None
  }

  // ---------------------------------------------------------------- the defaulting loops

  /** Slot-wise agreement is equality: the slots and the Log and Sentry sections make up the record. */
  lemma SlotsDetermine(a: AppConfigValue, b: AppConfigValue)
    requires forall s: StringSlot :: StringAt(a, s) == StringAt(b, s)
    requires forall s: IntSlot :: IntAt(a, s) == IntAt(b, s)
    requires a.log == b.log && a.sentry == b.sentry
    ensures a == b
  {
    assert StringAt(a, PublicAPIAddress) == StringAt(b, PublicAPIAddress);
    assert StringAt(a, ServiceAPIAddress) == StringAt(b, ServiceAPIAddress);
    assert StringAt(a, DBDSN) == StringAt(b, DBDSN);
    assert IntAt(a, PublicAPIPort) == IntAt(b, PublicAPIPort);
    assert IntAt(a, PublicAPIReadTimeout) == IntAt(b, PublicAPIReadTimeout);
    assert IntAt(a, PublicAPIWriteTimeout) == IntAt(b, PublicAPIWriteTimeout);
    assert IntAt(a, PublicAPIIdleTimeout) == IntAt(b, PublicAPIIdleTimeout);
    assert IntAt(a, ServiceAPIPort) == IntAt(b, ServiceAPIPort);
    assert IntAt(a, ServiceAPIReadTimeout) == IntAt(b, ServiceAPIReadTimeout);
    assert IntAt(a, ServiceAPIWriteTimeout) == IntAt(b, ServiceAPIWriteTimeout);
    assert IntAt(a, ServiceAPIIdleTimeout) == IntAt(b, ServiceAPIIdleTimeout);
  }

  /** Every field of the defaulted record, slot by slot. */
  lemma DefaultedSlots(v: AppConfigValue)
    ensures forall s: StringSlot :: StringAt(Defaulted(v), s) == DefaultedString(StringAt(v, s), DefaultString(s))
    ensures forall s: IntSlot :: IntAt(Defaulted(v), s) == DefaultedInt(IntAt(v, s), DefaultInt(s))
    ensures Defaulted(v).log == v.log && Defaulted(v).sentry == v.sentry
  {
  }

  /** `v` is `v0` with exactly the string slots in `done` defaulted. */
  ghost predicate StringsDefaulted(v: AppConfigValue, v0: AppConfigValue, done: seq<StringSlot>)
  {
    && (forall s: StringSlot :: StringAt(v, s) == (if s in done then DefaultedString(StringAt(v0, s), DefaultString(s))
                                                   else StringAt(v0, s)))
    && (forall s: IntSlot :: IntAt(v, s) == IntAt(v0, s))
    && v.log == v0.log && v.sentry == v0.sentry
  }

  /** `v` is `v0` with every string slot and exactly the int slots in `done` defaulted. */
  ghost predicate IntsDefaulted(v: AppConfigValue, v0: AppConfigValue, done: seq<IntSlot>)
  {
    && (forall s: StringSlot :: StringAt(v, s) == DefaultedString(StringAt(v0, s), DefaultString(s)))
    && (forall s: IntSlot :: IntAt(v, s) == (if s in done then DefaultedInt(IntAt(v0, s), DefaultInt(s))
                                             else IntAt(v0, s)))
    && v.log == v0.log && v.sentry == v0.sentry
  }

  lemma StringStep(v: AppConfigValue, v0: AppConfigValue, done: seq<StringSlot>, t: StringSlot)
    requires StringsDefaulted(v, v0, done)
    ensures StringsDefaulted(WithString(v, t, DefaultedString(StringAt(v, t), DefaultString(t))), v0, done + [t])
  {
    var v' := WithString(v, t, DefaultedString(StringAt(v, t), DefaultString(t)));
    forall s: StringSlot
      ensures StringAt(v', s) == (if s in done + [t] then DefaultedString(StringAt(v0, s), DefaultString(s))
                                  else StringAt(v0, s))
    {
      assert s in done + [t] <==> s in done || s == t;
    }
  }

  lemma IntStep(v: AppConfigValue, v0: AppConfigValue, done: seq<IntSlot>, t: IntSlot)
    requires IntsDefaulted(v, v0, done)
    ensures IntsDefaulted(WithInt(v, t, DefaultedInt(IntAt(v, t), DefaultInt(t))), v0, done + [t])
  {
    var v' := WithInt(v, t, DefaultedInt(IntAt(v, t), DefaultInt(t)));
    forall s: IntSlot
      ensures IntAt(v', s) == (if s in done + [t] then DefaultedInt(IntAt(v0, s), DefaultInt(s))
                               else IntAt(v0, s))
    {
      assert s in done + [t] <==> s in done || s == t;
    }
    forall s: StringSlot
      ensures StringAt(v', s) == DefaultedString(StringAt(v0, s), DefaultString(s))
    {
    }
  }

  /**
   * The two loops of `initFromString`, visiting the default maps in the
   * order given (Go leaves map order unspecified; every order, with every
   * key at least once, yields the same record).
   */
  method ApplyDefaults(cfg: AppConfig, stringOrder: seq<StringSlot>, intOrder: seq<IntSlot>)
    requires forall s: StringSlot :: s in stringOrder
    requires forall s: IntSlot :: s in intOrder
    modifies cfg
    ensures cfg.Value() == Defaulted(old(cfg.Value()))
  {
    ghost var v0 := cfg.Value();
    for i := 0 to |stringOrder|
      invariant StringsDefaulted(cfg.Value(), v0, stringOrder[..i])
    {
      ghost var before := cfg.Value();
      cfg.SetDefaultStringValue(stringOrder[i], DefaultString(stringOrder[i]));
      StringStep(before, v0, stringOrder[..i], stringOrder[i]);
      assert stringOrder[..i + 1] == stringOrder[..i] + [stringOrder[i]];
    }
    assert stringOrder[..|stringOrder|] == stringOrder;
    for i := 0 to |intOrder|
      invariant IntsDefaulted(cfg.Value(), v0, intOrder[..i])
    {
      ghost var before := cfg.Value();
      cfg.SetDefaultIntValue(intOrder[i], DefaultInt(intOrder[i]));
      IntStep(before, v0, intOrder[..i], intOrder[i]);
      assert intOrder[..i + 1] == intOrder[..i] + [intOrder[i]];
    }
    assert intOrder[..|intOrder|] == intOrder;
    DefaultedSlots(v0);
    SlotsDetermine(cfg.Value(), Defaulted(v0));
  }

  /**
   * `initFromString` with the outcome of `yaml.Unmarshal`: a decoding error
   * is returned and the global is left alone; otherwise a new record is
   * installed and defaulted.
   */
  method InitFromString(g: Globals, decoded: Result<AppConfigValue, Error>,
                        stringOrder: seq<StringSlot>, intOrder: seq<IntSlot>)
    returns (err: Option<Error>)
    requires forall s: StringSlot :: s in stringOrder
    requires forall s: IntSlot :: s in intOrder
    modifies g
    ensures decoded.Failure? ==> err == Some(decoded.error) && g.config == old(g.config)
    ensures decoded.Success? ==> err.None? && g.config != null && fresh(g.config)
                                 && g.config.Value() == Defaulted(decoded.value)
  {
    if decoded.Failure? {
      return Some(decoded.error);
    }
    var cfg := new AppConfig(decoded.value);
    g.config := cfg;
    ApplyDefaults(cfg, stringOrder, intOrder);
    return None;
  }

  // ---------------------------------------------------------------- what defaulting guarantees

  /** After defaulting, every port and timeout is positive and every address and the DSN is set. */
  lemma DefaultedIsComplete(v: AppConfigValue)
    ensures forall s: IntSlot :: IntAt(Defaulted(v), s) > 0
    ensures forall s: StringSlot :: StringAt(Defaulted(v), s) != ""
  {
    DefaultedSlots(v);
  }

  /**
   * A field changes exactly when it was unset (empty, or not positive), and
   * then it takes its default; Log and Sentry are never touched.
   */
  lemma DefaultedChangesOnlyUnset(v: AppConfigValue)
    ensures forall s: IntSlot :: (IntAt(Defaulted(v), s) != IntAt(v, s) ==> IntAt(v, s) <= 0)
    ensures forall s: IntSlot :: IntAt(v, s) <= 0 ==> IntAt(Defaulted(v), s) == DefaultInt(s)
    ensures forall s: StringSlot :: (StringAt(Defaulted(v), s) != StringAt(v, s) <==> StringAt(v, s) == "")
    ensures forall s: StringSlot :: StringAt(v, s) == "" ==> StringAt(Defaulted(v), s) == DefaultString(s)
    ensures Defaulted(v).log == v.log && Defaulted(v).sentry == v.sentry
  {
    DefaultedSlots(v);
  }

  /** Defaulting twice is defaulting once. */
  lemma DefaultedIdempotent(v: AppConfigValue)
    ensures Defaulted(Defaulted(v)) == Defaulted(v)
  {
    DefaultedSlots(v);
    DefaultedSlots(Defaulted(v));
    SlotsDetermine(Defaulted(Defaulted(v)), Defaulted(v));
  }

  /** An empty document gives the documented defaults, with the DSN `positions.db`. */
  lemma EmptyDocumentDefaults()
    ensures Defaulted(ZeroConfig) == AppConfigValue(
      LogConfig("", false, false),
      ServerConfig("127.0.0.1", 63100, 60, 120, 240),
      DBConfig("positions.db"),
      ServerConfig("127.0.0.1", 63101, 60, 120, 240),
      SentryConfig("", "", false))
  {
  }

  /** A document that sets every field keeps every value it sets. */
  lemma ExplicitValuesKept()
    ensures var v := AppConfigValue(
      LogConfig("/var/log/test/test.log", true, true),
      ServerConfig("localhost", 63100, 15, 20, 30),
      DBConfig("test_positions.db"),
      ServerConfig("localhost", 63101, 15, 20, 30),
      SentryConfig("some_sentry_dsn", "dev", true));
      Defaulted(v) == v
  {
  }
}
