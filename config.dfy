/**
 * Configuration of a RabbitMQConnection: the property bag read from the
 * parameters file, the checks `init` runs on it in their fixed order, the
 * optional TLS context, and the connection factory settings with their
 * defaults.
 */
module Config {
  import opened Wrappers
  import opened Numbers

  /** A loaded `java.util.Properties` bag. */
  type Properties = map<string, string>

  /**
   * Where the parameters files live: a path that is present can be opened;
   * its entry is the parsed bag, or `None` when `Properties.load` fails on it.
   */
  type FileSystem = map<string, Option<Properties>>

  /** `Properties.getProperty(key, default)`. */
  function GetProperty(props: Properties, key: string, default: string): string
  {
    if key in props then props[key] else default
  }

  /** TLS is set up only when property `SSL` is exactly "1"; an absent `SSL` reads as "0". */
  predicate SslRequested(props: Properties)
  {
    GetProperty(props, "SSL", "0") == "1"
  }

  /** What a TLS context is built from: the client PKCS12 bundle and the JKS trust store. */
  datatype TlsMaterial = TlsMaterial(
    clientKeyCert: string,
    clientKeyPassphrase: string,
    trustKeystore: string,
    trustKeystorePassphrase: string)

  datatype SslContext = SslContext(material: TlsMaterial)

  /** The three opaque steps of the crypto library, in the order init runs them. */
  datatype CryptoStage =
    | ClientKeys   // PKCS12 keystore load and key-manager factory
    | TrustStore   // JKS keystore load and trust-manager factory
    | Context      // SSL context creation and initialisation

  /**
   * The crypto library seen from init: each step succeeds or fails on its
   * inputs. A path that cannot be opened, a wrong passphrase or a corrupt
   * store all make the step fail.
   */
  datatype Crypto = Crypto(
    clientKeysLoad: (string, string) -> bool,
    trustStoreLoad: (string, string) -> bool,
    contextInit: TlsMaterial -> bool)

  /** Everything init can throw. */
  datatype InitError =
    | NoParametersFile                      // RabbitMQConnectionInitializationException
    | ParametersFileNotFound(path: string)  // RabbitMQConnectionInitializationException
    | ParametersUnreadable                  // IOException from Properties.load
    | QueueNameMissing                      // RabbitMQConnectionInitializationException
    | ClientKeyCertMissing                  // RabbitMQConnectionInitializationException
    | TrustKeystoreMissing                  // RabbitMQConnectionInitializationException
    | TrustPassphraseMissing                // NullPointerException
    | CryptoFailed(stage: CryptoStage)      // GeneralSecurityException or IOException
    | PortNotNumeric(text: string)          // NumberFormatException
  {
    /** The failures init reports with its own exception type. */
    predicate IsInitializationException()
    {
      NoParametersFile? || ParametersFileNotFound? || QueueNameMissing?
      || ClientKeyCertMissing? || TrustKeystoreMissing?
    }

    function Message(): string
      requires IsInitializationException()
    {
      match this
      case NoParametersFile => "No file with parameters specified"
      case ParametersFileNotFound(path) =>
        "Unable to find specified file with parameters (" + path + ")"
      case QueueNameMissing => "Queue name not specified in the supplied file"
      case ClientKeyCertMissing =>
        "With ssl enabled you must specify property clientKeyCert"
        + " which is the path to the client certificate in p12 format"
      case TrustKeystoreMissing =>
        "With ssl enabled you must specify property trustKeystore"
        + " which is the path to the trust store"
    }
  }

  /** The settings a `ConnectionFactory` carries. */
  datatype ConnectionFactory = ConnectionFactory(
    host: string,
    port: int32,
    username: string,
    password: string,
    virtualHost: string,
    ssl: Option<SslContext>)

  /** A freshly constructed `ConnectionFactory`, before any setter is called. */
  const NewConnectionFactory := ConnectionFactory("localhost", 5672, "guest", "guest", "/", None)

  /** TLS is requested and both store paths are given: the crypto steps will run. */
  predicate TlsPathsGiven(props: Properties)
  {
    SslRequested(props) && "clientKeyCert" in props && "trustKeystore" in props
  }

  /** `clientKeyPassphrase`, "" when absent. */
  function ClientKeyPassphrase(props: Properties): string
  {
    GetProperty(props, "clientKeyPassphrase", "")
  }

  /** The material a complete TLS bag names. */
  function ConfiguredMaterial(props: Properties): TlsMaterial
    requires TlsPathsGiven(props) && "trustKeystorePassphrase" in props
  {
    TlsMaterial(props["clientKeyCert"], ClientKeyPassphrase(props),
                props["trustKeystore"], props["trustKeystorePassphrase"])
  }

  /**
   * The TLS part of init: the context, or `None` when TLS is not requested.
   * The two path checks come before any crypto step, and the trust
   * passphrase is looked up only after the client keys have loaded.
   */
  function TlsSetup(props: Properties, crypto: Crypto): (r: Result<Option<SslContext>, InitError>)
    ensures !SslRequested(props) ==> r == Ok(None)
    ensures SslRequested(props) && "clientKeyCert" !in props ==> r == Err(ClientKeyCertMissing)
    ensures SslRequested(props) && "clientKeyCert" in props && "trustKeystore" !in props
            ==> r == Err(TrustKeystoreMissing)
    // Each crypto step that fails makes init fail at that step, in order.
    ensures TlsPathsGiven(props) && !crypto.clientKeysLoad(props["clientKeyCert"], ClientKeyPassphrase(props))
            ==> r == Err(CryptoFailed(ClientKeys))
    ensures TlsPathsGiven(props) && crypto.clientKeysLoad(props["clientKeyCert"], ClientKeyPassphrase(props))
            && "trustKeystorePassphrase" !in props
            ==> r == Err(TrustPassphraseMissing)
    ensures TlsPathsGiven(props) && crypto.clientKeysLoad(props["clientKeyCert"], ClientKeyPassphrase(props))
            && "trustKeystorePassphrase" in props
            && !crypto.trustStoreLoad(props["trustKeystore"], props["trustKeystorePassphrase"])
            ==> r == Err(CryptoFailed(TrustStore))
    ensures TlsPathsGiven(props) && "trustKeystorePassphrase" in props
            && crypto.clientKeysLoad(props["clientKeyCert"], ClientKeyPassphrase(props))
            && crypto.trustStoreLoad(props["trustKeystore"], props["trustKeystorePassphrase"])
            ==> r == (if crypto.contextInit(ConfiguredMaterial(props))
                      then Ok(Some(SslContext(ConfiguredMaterial(props))))
                      else Err(CryptoFailed(Context)))
    // A context exists only when all three steps passed on the configured material.
    ensures r.Ok? && r.value.Some? ==>
              && TlsPathsGiven(props) && "trustKeystorePassphrase" in props
              && crypto.clientKeysLoad(props["clientKeyCert"], ClientKeyPassphrase(props))
              && crypto.trustStoreLoad(props["trustKeystore"], props["trustKeystorePassphrase"])
              && r.value.value.material == ConfiguredMaterial(props)
              && crypto.contextInit(r.value.value.material)
  {
    if !SslRequested(props) then Ok(None)
    else if "clientKeyCert" !in props then Err(ClientKeyCertMissing)
    else if "trustKeystore" !in props then Err(TrustKeystoreMissing)
    else
      var keyPassphrase := ClientKeyPassphrase(props);
      if !crypto.clientKeysLoad(props["clientKeyCert"], keyPassphrase) then Err(CryptoFailed(ClientKeys))
      else if "trustKeystorePassphrase" !in props then Err(TrustPassphraseMissing)
      else
        var trustPassphrase := props["trustKeystorePassphrase"];
        if !crypto.trustStoreLoad(props["trustKeystore"], trustPassphrase) then Err(CryptoFailed(TrustStore))
        else
          var material := TlsMaterial(props["clientKeyCert"], keyPassphrase, props["trustKeystore"], trustPassphrase);
          if !crypto.contextInit(material) then Err(CryptoFailed(Context))
          else Ok(Some(SslContext(material)))
  }

  /**
   * The whole validation of init on the loaded bag: the factory it ends with,
   * or the error it throws.
   */
  function Configure(props: Properties, crypto: Crypto): (r: Result<ConnectionFactory, InitError>)
    ensures "queueName" !in props ==> r == Err(QueueNameMissing)
    ensures r.Ok? ==>
              && "queueName" in props
              && r.value.host == GetProperty(props, "host", "localhost")
              && ParseInt(GetProperty(props, "port", "5672")) == Some(r.value.port)
              && r.value.username == GetProperty(props, "username", "guest")
              && r.value.password == GetProperty(props, "password", "guest")
              && r.value.virtualHost == GetProperty(props, "vhost", "/")
    ensures r.Ok? ==> (r.value.ssl.Some? <==> SslRequested(props))
    ensures "queueName" in props && TlsSetup(props, crypto).Err? ==> r == Err(TlsSetup(props, crypto).error)
    ensures "queueName" in props && TlsSetup(props, crypto).Ok?
            && ParseInt(GetProperty(props, "port", "5672")).Some?
            ==> r.Ok? && r.value.ssl == TlsSetup(props, crypto).value
    ensures "queueName" in props && TlsSetup(props, crypto).Ok?
            && ParseInt(GetProperty(props, "port", "5672")).None?
            ==> r == Err(PortNotNumeric(GetProperty(props, "port", "5672")))
    ensures r.Err? && r.error.PortNotNumeric? ==>
              && "queueName" in props && TlsSetup(props, crypto).Ok?
              && r.error.text == GetProperty(props, "port", "5672")
              && ParseInt(r.error.text).None?
  {
    if "queueName" !in props then Err(QueueNameMissing)
    else match TlsSetup(props, crypto)
      case Err(e) => Err(e)
      case Ok(ssl) =>
        var portText := GetProperty(props, "port", "5672");
        match ParseInt(portText)
        case None => Err(PortNotNumeric(portText))
        case Some(port) =>
          Ok(ConnectionFactory(
            GetProperty(props, "host", "localhost"),
            port,
            GetProperty(props, "username", "guest"),
            GetProperty(props, "password", "guest"),
            GetProperty(props, "vhost", "/"),
            ssl))
  }

  /**
   * The `connectionFactory` field after init on bag `props`. The field is
   * reassigned only once validation has passed, and before the port is
   * parsed: a non-numeric port leaves a new factory on which only the host
   * has been set.
   */
  function FactoryAfterConfigure(previous: Option<ConnectionFactory>, props: Properties, crypto: Crypto)
    : Option<ConnectionFactory>
  {
    match Configure(props, crypto)
    case Ok(f) => Some(f)
    case Err(PortNotNumeric(_)) =>
      Some(NewConnectionFactory.(host := GetProperty(props, "host", "localhost")))
    case Err(_) => previous
  }

  /** The state a call of init leaves behind, and what it throws. */
  datatype InitOutcome = InitOutcome(
    properties: Properties,
    factory: Option<ConnectionFactory>,
    error: Option<InitError>)

  /**
   * `init(InputStream)`: the stream's keys are added to the bag kept from
   * earlier calls (a key read again is overwritten), then the merged bag is
   * validated.
   */
  function InitFromStreamOutcome(
    props: Properties, factory: Option<ConnectionFactory>, source: Option<Properties>, crypto: Crypto)
    : InitOutcome
  {
    match source
    case None => InitOutcome(props, factory, Some(ParametersUnreadable))
    case Some(loaded) =>
      var merged := props + loaded;
      var configured := Configure(merged, crypto);
      InitOutcome(
        merged,
        FactoryAfterConfigure(factory, merged, crypto),
        if configured.Err? then Some(configured.error) else None)
  }

  /** `init(String)`: a null path, then a path that cannot be opened, then `init(InputStream)`. */
  function InitFromPathOutcome(
    props: Properties, factory: Option<ConnectionFactory>, path: Option<string>, files: FileSystem, crypto: Crypto)
    : InitOutcome
  {
    match path
    case None => InitOutcome(props, factory, Some(NoParametersFile))
    case Some(p) =>
      if p !in files then InitOutcome(props, factory, Some(ParametersFileNotFound(p)))
      else InitFromStreamOutcome(props, factory, files[p], crypto)
  }

  /** A null path is refused with init's own exception before anything is loaded. */
  lemma NullPathRefused(props: Properties, factory: Option<ConnectionFactory>, files: FileSystem, crypto: Crypto)
    ensures var o := InitFromPathOutcome(props, factory, None, files, crypto);
            && o == InitOutcome(props, factory, Some(NoParametersFile))
            && o.error.value.IsInitializationException()
  {
  }

  /** A path that cannot be opened is refused with the same exception type, naming the path. */
  lemma UnopenablePathRefused(
    props: Properties, factory: Option<ConnectionFactory>, path: string, files: FileSystem, crypto: Crypto)
    requires path !in files
    ensures var o := InitFromPathOutcome(props, factory, Some(path), files, crypto);
            && o == InitOutcome(props, factory, Some(ParametersFileNotFound(path)))
            && o.error.value.IsInitializationException()
            && o.error.value.Message()
               == "Unable to find specified file with parameters (" + path + ")"
  {
  }

  /**
   * When the merged bag has no `queueName`, init throws its own exception and
   * the factory is left as it was.
   */
  lemma QueueNameRequired(
    props: Properties, factory: Option<ConnectionFactory>, loaded: Properties, crypto: Crypto)
    requires "queueName" !in props + loaded
    ensures InitFromStreamOutcome(props, factory, Some(loaded), crypto)
            == InitOutcome(props + loaded, factory, Some(QueueNameMissing))
  {
  }

  /**
   * Every failure before line-by-line factory setup leaves the factory
   * untouched; only a bad port replaces it, with a factory whose settings
   * other than the host are the library's defaults.
   */
  lemma FactoryReplacedOnlyAfterValidation(
    previous: Option<ConnectionFactory>, props: Properties, crypto: Crypto)
    ensures Configure(props, crypto).Err? && !Configure(props, crypto).error.PortNotNumeric?
            ==> FactoryAfterConfigure(previous, props, crypto) == previous
    ensures FactoryAfterConfigure(previous, props, crypto) != previous
            ==> "queueName" in props && TlsSetup(props, crypto).Ok?
    ensures "queueName" in props && TlsSetup(props, crypto).Ok?
            && ParseInt(GetProperty(props, "port", "5672")).None?
            ==> FactoryAfterConfigure(previous, props, crypto)
                == Some(NewConnectionFactory.(host := GetProperty(props, "host", "localhost")))
    ensures Configure(props, crypto).Err? && Configure(props, crypto).error.PortNotNumeric?
            ==> var f := FactoryAfterConfigure(previous, props, crypto).value;
                f.port == 5672 && f.username == "guest" && f.password == "guest"
                && f.virtualHost == "/" && f.ssl.None?
  {
  }

  /** With TLS off and no optional key given, the factory holds the documented defaults. */
  lemma DefaultSettings(props: Properties, crypto: Crypto)
    requires "queueName" in props && !SslRequested(props)
    requires "host" !in props && "port" !in props && "username" !in props
    requires "password" !in props && "vhost" !in props
    ensures Configure(props, crypto) == Ok(ConnectionFactory("localhost", 5672, "guest", "guest", "/", None))
  {
    DefaultPortParses();
  }

  /** The default port text "5672" is a valid Java `int`. */
  lemma DefaultPortParses()
    ensures ParseInt("5672") == Some(5672)
  {
    ParseIntRoundTrip(5672);
    assert Decimal(5672) == "5672" by {
      assert NaturalDecimal(5) == "5";
      assert NaturalDecimal(56) == "56";
      assert NaturalDecimal(567) == "567";
    }
  }

  /**
   * A complete TLS bag whose three crypto steps pass configures a factory
   * switched to TLS, with the context built from the bag's material.
   */
  lemma TlsSettings(props: Properties, crypto: Crypto)
    requires "queueName" in props && TlsPathsGiven(props) && "trustKeystorePassphrase" in props
    requires crypto.clientKeysLoad(props["clientKeyCert"], ClientKeyPassphrase(props))
    requires crypto.trustStoreLoad(props["trustKeystore"], props["trustKeystorePassphrase"])
    requires crypto.contextInit(ConfiguredMaterial(props))
    requires "port" !in props
    ensures Configure(props, crypto).Ok?
    ensures Configure(props, crypto).value.ssl == Some(SslContext(ConfiguredMaterial(props)))
    ensures Configure(props, crypto).value.port == 5672
  {
    DefaultPortParses();
  }

  /**
   * With TLS off, every explicit setting comes back unchanged from the
   * factory, the port being any Java `int` written in decimal.
   */
  lemma ExplicitSettings(props: Properties, crypto: Crypto, port: int32)
    requires "queueName" in props && !SslRequested(props)
    requires "host" in props && "username" in props && "password" in props && "vhost" in props
    requires "port" in props && props["port"] == Decimal(port)
    ensures Configure(props, crypto)
            == Ok(ConnectionFactory(props["host"], port, props["username"], props["password"], props["vhost"], None))
  {
    ParseIntRoundTrip(port);
  }

  /**
   * TLS is set up, and the factory switched to it, exactly when `SSL` is "1";
   * its context is built from the configured paths and passphrases.
   */
  lemma SslExactlyWhenRequested(props: Properties, crypto: Crypto)
    requires Configure(props, crypto).Ok?
    ensures var f := Configure(props, crypto).value;
            && (f.ssl.Some? <==> GetProperty(props, "SSL", "0") == "1")
            && (f.ssl.Some? ==> TlsPathsGiven(props) && "trustKeystorePassphrase" in props
                                && f.ssl.value.material == ConfiguredMaterial(props))
  {
  }

  /**
   * A second init keeps the keys of the first: a bag that once held
   * `queueName` never fails for lack of it, and a key not read again keeps
   * its earlier value.
   */
  lemma EarlierKeysPersist(
    props: Properties, factory: Option<ConnectionFactory>, loaded: Properties, crypto: Crypto, key: string)
    requires "queueName" in props
    requires key in props && key !in loaded
    ensures var o := InitFromStreamOutcome(props, factory, Some(loaded), crypto);
            && o.error != Some(QueueNameMissing)
            && key in o.properties && o.properties[key] == props[key]
  {
  }
}
