/**
 * The application configuration and how missing settings are filled in
 * after the YAML file is decoded. The sections that Go embeds by value are
 * datatypes; the cache section, a pointer that may be nil, is an object.
 * Durations are in nanoseconds, as Go's time.Duration counts them.
 */
module Configuration {
  import opened Common

  const Second: int := 1_000_000_000
  const Minute: int := 60 * Second

  datatype AppConfig = AppConfig(name: string, version: string, environment: string)

  datatype LoggingConfig = LoggingConfig(level: string, output: string)

  datatype PythonConfig = PythonConfig(timeout: int, enabled: bool, path: string, script: string, venv: string)

  /** The imaging settings that are given defaults. */
  datatype ImagingConfig = ImagingConfig(tempDir: string, maxFileSize: int, defaultResolution: int, minQuality: int)

  datatype APIConfig = APIConfig(host: string, port: string)

  datatype ChromaConfig = ChromaConfig(colorThreshold: real, sampleSize: int)

  /** The values held by a CacheConfig object. */
  datatype CacheSettings = CacheSettings(
    enabled: bool, directory: string, memoryTTL: int, diskTTL: int,
    maxMemoryMB: int, compress: bool, cleanupInterval: int)

  /** A freshly allocated CacheConfig: every field at its zero value. */
  const ZeroCache := CacheSettings(false, "", 0, 0, 0, false, 0)

  /** The values held by a Config object; a nil cache section is None. */
  datatype ConfigValue = ConfigValue(
    app: AppConfig, serverPort: string, logging: LoggingConfig, python: PythonConfig,
    imaging: ImagingConfig, api: APIConfig, chroma: ChromaConfig, cache: Option<CacheSettings>)

  // ------------------------------------------------------------------
  // What setDefaults and Load make of a decoded configuration.
  // ------------------------------------------------------------------

  function OrDefault(s: string, d: string): string { if s == "" then d else s }

  function OrDefaultInt(n: int, d: int): int { if n == 0 then d else n }

  function OrDefaultReal(x: real, d: real): real { if x == 0.0 then d else x }

  function DefaultedApp(a: AppConfig): AppConfig
  {
    a.(environment := OrDefault(a.environment, "development"))
  }

  function DefaultedLogging(l: LoggingConfig): LoggingConfig
  {
    LoggingConfig(OrDefault(l.level, "info"), OrDefault(l.output, "console"))
  }

  function DefaultedPython(p: PythonConfig): PythonConfig
  {
    p.(enabled := true, path := OrDefault(p.path, "python3"),
       script := OrDefault(p.script, "py_services/feature_extractor.py"),
       venv := OrDefault(p.venv, "balistics-env"))
  }

  function DefaultedImaging(i: ImagingConfig): ImagingConfig
  {
    ImagingConfig(OrDefault(i.tempDir, "/tmp/balistica"), OrDefaultInt(i.maxFileSize, 10 * 1024 * 1024),
                  OrDefaultInt(i.defaultResolution, 300), OrDefaultInt(i.minQuality, 75))
  }

  function DefaultedAPI(a: APIConfig): APIConfig
  {
    APIConfig(OrDefault(a.host, "0.0.0.0"), OrDefault(a.port, "8080"))
  }

  function DefaultedChroma(c: ChromaConfig): ChromaConfig
  {
    ChromaConfig(OrDefaultReal(c.colorThreshold, 0.05), OrDefaultInt(c.sampleSize, 1000))
  }

  function DefaultedCache(c: CacheSettings): CacheSettings
  {
    CacheSettings(true, OrDefault(c.directory, "./cache"), OrDefaultInt(c.memoryTTL, 5 * Minute),
      OrDefaultInt(c.diskTTL, 30 * Minute), OrDefaultInt(c.maxMemoryMB, 100), true,
      OrDefaultInt(c.cleanupInterval, 10 * Minute))
  }

  /** The configuration after setDefaults. */
  function Defaulted(v: ConfigValue): ConfigValue
  {
    ConfigValue(DefaultedApp(v.app), v.serverPort, DefaultedLogging(v.logging), DefaultedPython(v.python),
      DefaultedImaging(v.imaging), DefaultedAPI(v.api), DefaultedChroma(v.chroma),
      Some(DefaultedCache(if v.cache.None? then ZeroCache else v.cache.value)))
  }

  /** Every setting setDefaults looks at is present, and the forced switches are on. */
  predicate Complete(v: ConfigValue)
  {
    && v.app.environment != ""
    && v.logging.level != "" && v.logging.output != ""
    && v.python.enabled && v.python.path != "" && v.python.script != "" && v.python.venv != ""
    && v.imaging.tempDir != "" && v.imaging.maxFileSize != 0
    && v.imaging.defaultResolution != 0 && v.imaging.minQuality != 0
    && v.api.host != "" && v.api.port != ""
    && v.chroma.colorThreshold != 0.0 && v.chroma.sampleSize != 0
    && v.cache.Some? && v.cache.value.enabled && v.cache.value.compress
    && v.cache.value.directory != "" && v.cache.value.memoryTTL != 0 && v.cache.value.diskTTL != 0
    && v.cache.value.maxMemoryMB != 0 && v.cache.value.cleanupInterval != 0
  }

  /** `after` keeps every setting that `before` already had. */
  predicate KeepsSettings(before: ConfigValue, after: ConfigValue)
  {
    && after.app.name == before.app.name && after.app.version == before.app.version
    && after.serverPort == before.serverPort && after.python.timeout == before.python.timeout
    && (before.app.environment != "" ==> after.app.environment == before.app.environment)
    && (before.logging.level != "" ==> after.logging.level == before.logging.level)
    && (before.logging.output != "" ==> after.logging.output == before.logging.output)
    && (before.python.path != "" ==> after.python.path == before.python.path)
    && (before.python.script != "" ==> after.python.script == before.python.script)
    && (before.python.venv != "" ==> after.python.venv == before.python.venv)
    && (before.imaging.tempDir != "" ==> after.imaging.tempDir == before.imaging.tempDir)
    && (before.imaging.maxFileSize != 0 ==> after.imaging.maxFileSize == before.imaging.maxFileSize)
    && (before.imaging.defaultResolution != 0 ==> after.imaging.defaultResolution == before.imaging.defaultResolution)
    && (before.imaging.minQuality != 0 ==> after.imaging.minQuality == before.imaging.minQuality)
    && (before.api.host != "" ==> after.api.host == before.api.host)
    && (before.api.port != "" ==> after.api.port == before.api.port)
    && (before.chroma.colorThreshold != 0.0 ==> after.chroma.colorThreshold == before.chroma.colorThreshold)
    && (before.chroma.sampleSize != 0 ==> after.chroma.sampleSize == before.chroma.sampleSize)
    && (before.cache.Some? ==> after.cache.Some? && KeepsCache(before.cache.value, after.cache.value))
  }

  predicate KeepsCache(before: CacheSettings, after: CacheSettings)
  {
    && (before.directory != "" ==> after.directory == before.directory)
    && (before.memoryTTL != 0 ==> after.memoryTTL == before.memoryTTL)
    && (before.diskTTL != 0 ==> after.diskTTL == before.diskTTL)
    && (before.maxMemoryMB != 0 ==> after.maxMemoryMB == before.maxMemoryMB)
    && (before.cleanupInterval != 0 ==> after.cleanupInterval == before.cleanupInterval)
  }

  /**
   * setDefaults fills every missing setting, forces the cache, compression
   * and Python switches on, and leaves every setting already present as
   * it was.
   */
  lemma DefaultedFillsAndKeeps(v: ConfigValue)
    ensures Complete(Defaulted(v))
    ensures KeepsSettings(v, Defaulted(v))
  {
  }

  /** A nil cache section is allocated and then given every cache default. */
  lemma DefaultedNilCache(v: ConfigValue)
    requires v.cache.None?
    ensures Defaulted(v).cache == Some(CacheSettings(true, "./cache", 300 * Second, 1800 * Second, 100, true, 600 * Second))
  {
  }

  /** setDefaults changes a configuration exactly when something is missing or a switch is off. */
  lemma DefaultedFixpoint(v: ConfigValue)
    ensures Defaulted(v) == v <==> Complete(v)
  {
    if Complete(v) {
      assert Defaulted(v).cache == v.cache;
    }
  }

  /** setDefaults is idempotent. */
  lemma DefaultedIdempotent(v: ConfigValue)
    ensures Defaulted(Defaulted(v)) == Defaulted(v)
  {
    DefaultedFillsAndKeeps(v);
    DefaultedFixpoint(Defaulted(v));
  }

  /** A decoded file that sets nothing. */
  const EmptyConfig := ConfigValue(AppConfig("", "", ""), "", LoggingConfig("", ""), PythonConfig(0, false, "", "", ""),
    ImagingConfig("", 0, 0, 0), APIConfig("", ""), ChromaConfig(0.0, 0), None)

  /** The documented defaults, as setDefaults writes them into an empty configuration. */
  lemma DefaultedEmpty()
    ensures Defaulted(EmptyConfig) == ConfigValue(
      AppConfig("", "", "development"), "", LoggingConfig("info", "console"),
      PythonConfig(0, true, "python3", "py_services/feature_extractor.py", "balistics-env"),
      ImagingConfig("/tmp/balistica", 10_485_760, 300, 75), APIConfig("0.0.0.0", "8080"),
      ChromaConfig(0.05, 1000),
      Some(CacheSettings(true, "./cache", 300_000_000_000, 1_800_000_000_000, 100, true, 600_000_000_000)))
  {
  }

  /** The configuration Load returns: setDefaults, then a 30 second Python timeout if none is set. */
  function Loaded(v: ConfigValue): ConfigValue
  {
    var d := Defaulted(v);
    d.(python := d.python.(timeout := OrDefaultInt(d.python.timeout, 30 * Second)))
  }

  /**
   * A loaded configuration is complete, has a Python timeout (the file's
   * own when it gives one), keeps every other setting the file gave, and
   * loading it again changes nothing.
   */
  lemma LoadedFacts(v: ConfigValue)
    ensures Complete(Loaded(v))
    ensures Loaded(v).python.timeout == (if v.python.timeout == 0 then 30 * Second else v.python.timeout)
    ensures Loaded(v).(python := Loaded(v).python.(timeout := v.python.timeout)) == Defaulted(v)
    ensures Loaded(Loaded(v)) == Loaded(v)
  {
    DefaultedFillsAndKeeps(v);
    DefaultedFixpoint(Loaded(v));
  }

  // ------------------------------------------------------------------
  // setDefaults, one section at a time.
  // ------------------------------------------------------------------

  method SetAppDefaults(a: AppConfig) returns (r: AppConfig)
    ensures r == DefaultedApp(a)
  {
    r := a;
    if r.environment == "" {
      r := r.(environment := "development");
    }
  }

  method SetLoggingDefaults(l: LoggingConfig) returns (r: LoggingConfig)
    ensures r == DefaultedLogging(l)
  {
    r := l;
    if r.level == "" {
      r := r.(level := "info");
    }
    if r.output == "" {
      r := r.(output := "console");
    }
  }

  method SetPythonDefaults(p: PythonConfig) returns (r: PythonConfig)
    ensures r == DefaultedPython(p)
  {
    r := p;
    if r.path == "" {
      r := r.(path := "python3");
    }
    if r.script == "" {
      r := r.(script := "py_services/feature_extractor.py");
    }
    if r.venv == "" {
      r := r.(venv := "balistics-env");
    }
    r := r.(enabled := true);
  }

  method SetImagingDefaults(i: ImagingConfig) returns (r: ImagingConfig)
    ensures r == DefaultedImaging(i)
  {
    r := i;
    if r.tempDir == "" {
      r := r.(tempDir := "/tmp/balistica");
    }
    if r.maxFileSize == 0 {
      r := r.(maxFileSize := 10 * 1024 * 1024);
    }
    if r.defaultResolution == 0 {
      r := r.(defaultResolution := 300);
    }
    if r.minQuality == 0 {
      r := r.(minQuality := 75);
    }
  }

  method SetAPIDefaults(a: APIConfig) returns (r: APIConfig)
    ensures r == DefaultedAPI(a)
  {
    r := a;
    if r.host == "" {
      r := r.(host := "0.0.0.0");
    }
    if r.port == "" {
      r := r.(port := "8080");
    }
  }

  method SetChromaDefaults(c: ChromaConfig) returns (r: ChromaConfig)
    ensures r == DefaultedChroma(c)
  {
    r := c;
    if r.colorThreshold == 0.0 {
      r := r.(colorThreshold := 0.05);
    }
    if r.sampleSize == 0 {
      r := r.(sampleSize := 1000);
    }
  }

  // ------------------------------------------------------------------
  // The configuration objects.
  // ------------------------------------------------------------------

  /** CacheConfig. */
  class CacheConfig {
    var enabled: bool
    var directory: string
    var memoryTTL: int
    var diskTTL: int
    var maxMemoryMB: int
    var compress: bool
    var cleanupInterval: int

    function Settings(): CacheSettings
      reads this
    {
      CacheSettings(enabled, directory, memoryTTL, diskTTL, maxMemoryMB, compress, cleanupInterval)
    }

    /** &CacheConfig{}: every field at its zero value. */
    constructor ()
      ensures Settings() == ZeroCache
    {
      enabled := false;
      directory := "";
      memoryTTL := 0;
      diskTTL := 0;
      maxMemoryMB := 0;
      compress := false;
      cleanupInterval := 0;
    }

    /** Loads the decoded values into a new cache section. */
    constructor FromSettings(s: CacheSettings)
      ensures Settings() == s
    {
      enabled := s.enabled;
      directory := s.directory;
      memoryTTL := s.memoryTTL;
      diskTTL := s.diskTTL;
      maxMemoryMB := s.maxMemoryMB;
      compress := s.compress;
      cleanupInterval := s.cleanupInterval;
    }

    /** The cache part of setDefaults, on the (possibly just allocated) section. */
    method SetDefaults()
      modifies this
      ensures Settings() == DefaultedCache(old(Settings()))
    {
      if directory == "" {
        directory := "./cache";
      }
      if memoryTTL == 0 {
        memoryTTL := 5 * Minute;
      }
      if diskTTL == 0 {
        diskTTL := 30 * Minute;
      }
      if maxMemoryMB == 0 {
        maxMemoryMB := 100;
      }
      if cleanupInterval == 0 {
        cleanupInterval := 10 * Minute;
      }
      enabled := true;
      compress := true;
    }
  }

  /** Config. */
  class Config {
    var app: AppConfig
    var serverPort: string
    var logging: LoggingConfig
    var python: PythonConfig
    var imaging: ImagingConfig
    var api: APIConfig
    var chroma: ChromaConfig
    var cache: CacheConfig?

    function Value(): ConfigValue
      reads this, cache
    {
      ConfigValue(app, serverPort, logging, python, imaging, api, chroma,
        if cache == null then None else Some(cache.Settings()))
    }

    /** The configuration as the YAML decoder fills it. */
    constructor (v: ConfigValue)
      ensures Value() == v
      ensures cache != null ==> fresh(cache)
    {
      app := v.app;
      serverPort := v.serverPort;
      logging := v.logging;
      python := v.python;
      imaging := v.imaging;
      api := v.api;
      chroma := v.chroma;
      if v.cache.None? {
        cache := null;
      } else {
        cache := new CacheConfig.FromSettings(v.cache.value);
      }
    }

    /**
     * setDefaults: fills the missing settings one at a time, allocating
     * the cache section first when it is nil, and switches the cache,
     * compression and Python integration on.
     */
    method SetDefaults()
      modifies this, cache
      ensures Value() == Defaulted(old(Value()))
      ensures cache != null
      ensures old(cache) != null ==> cache == old(cache)
      ensures old(cache) == null ==> fresh(cache)
    {
      app := SetAppDefaults(app);
      logging := SetLoggingDefaults(logging);
      python := SetPythonDefaults(python);
      imaging := SetImagingDefaults(imaging);
      api := SetAPIDefaults(api);
      chroma := SetChromaDefaults(chroma);
      if cache == null {
        cache := new CacheConfig();
      }
      cache.SetDefaults();
    }
  }

  /**
   * Load, given the outcome of reading the file and of decoding it: the
   * read error or the decode error wrapped in its message, or a new
   * configuration with its defaults set and a Python timeout.
   */
  method Load(readError: Option<string>, decoded: Result<ConfigValue>) returns (r: Result<Config>)
    ensures readError.Some? ==> r == Err("error reading config file: " + readError.value)
    ensures readError.None? && decoded.Err? ==> r == Err("error parsing config file: " + decoded.error)
    ensures readError.None? && decoded.Ok? ==> r.Ok? && fresh(r.value) && r.value.Value() == Loaded(decoded.value)
  {
    if readError.Some? {
      return Err("error reading config file: " + readError.value);
    }
    if decoded.Err? {
      return Err("error parsing config file: " + decoded.error);
    }
    var cfg := new Config(decoded.value);
    cfg.SetDefaults();
    if cfg.python.timeout == 0 {
      cfg.python := cfg.python.(timeout := 30 * Second);
    }
    return Ok(cfg);
  }
}
