/** The gateway's configuration loader (gateway/internal/config/config.go). Durations are
    nanoseconds; time.ParseDuration is the parameter `parseDuration`. */
module GatewayConfig {
  import opened Wrappers
  import opened GoText
  import opened EnvConfig
  import LittleEndian
  import HexFormat

  datatype Config = Config(
    appEnv: string,
    logLevel: Level,
    mqttBroker: string,
    mqttPort: int,
    mqttClientId: string,
    bme280Address: LittleEndian.u16,
    sensorPollInterval: int,
    deviceStationId: string)

  /** Config{}: the value every error path returns. */
  const ZeroConfig := Config("", Info, "", 0, "", 0, 0, "")

  type Loaded = (Config, Option<EnvError>)

  /** LoadFromEnv: each setting is trimmed and defaulted, then checked in order; the first failing
      check decides the error, and every error comes with the zero Config. */
  function LoadFromEnv(env: Env, parseDuration: string -> Option<int>): (r: Loaded)
    ensures r.1.Some? ==> r.0 == ZeroConfig
    ensures AppEnv(env).1.Some? ==> r.1 == AppEnv(env).1
    ensures AppEnv(env).1.None? && LogLevel(env).1.Some? ==> r.1 == LogLevel(env).1
    ensures r.1.None? ==> r.0.appEnv == AppEnv(env).0 && (r.0.appEnv == "dev" || r.0.appEnv == "prod")
    ensures r.1.None? ==> r.0.logLevel == LogLevel(env).0
  {
    var appEnv := AppEnv(env);
    if appEnv.1.Some? then (ZeroConfig, appEnv.1)
    else
      var level := LogLevel(env);
      if level.1.Some? then (ZeroConfig, level.1)
      else LoadMqtt(env, parseDuration, appEnv.0, level.0)
  }

  /** MQTT_BROKER, MQTT_PORT and MQTT_CLIENT_ID, then the sensor settings. */
  function LoadMqtt(env: Env, parseDuration: string -> Option<int>, appEnv: string, level: Level): (r: Loaded)
    ensures r.1.Some? ==> r.0 == ZeroConfig
    ensures r.1.None? ==> r.0.appEnv == appEnv && r.0.logLevel == level
    ensures r.1.None? ==> r.0.mqttBroker == Setting(env, "MQTT_BROKER", "localhost")
    ensures r.1.None? ==> Atoi(Setting(env, "MQTT_PORT", "1883")) == Some(r.0.mqttPort)
    ensures r.1.None? ==> r.0.mqttClientId == Setting(env, "MQTT_CLIENT_ID", "cloudpico-gateway")
    ensures r.1.None? ==> ParseUint16Base0(Setting(env, "BME280_ADDRESS", "0x76")) == Some(r.0.bme280Address as nat)
    ensures r.1.None? ==> parseDuration(Setting(env, "SENSOR_POLL_INTERVAL", "1s")) == Some(r.0.sensorPollInterval)
    ensures r.1.None? ==> r.0.sensorPollInterval > 0
    ensures r.1.None? ==> r.0.deviceStationId == Setting(env, "DEVICE_STATION_ID", "home")
  {
    var broker := Setting(env, "MQTT_BROKER", "localhost");
    var portStr := Setting(env, "MQTT_PORT", "1883");
    match Atoi(portStr)
    case None => (ZeroConfig, Some(InvalidValue("MQTT_PORT", portStr)))
    case Some(port) =>
      var clientId := Setting(env, "MQTT_CLIENT_ID", "cloudpico-gateway");
      LoadSensor(env, parseDuration, Config(appEnv, level, broker, port, clientId, 0, 0, ""))
  }

  /** BME280_ADDRESS, SENSOR_POLL_INTERVAL and DEVICE_STATION_ID on top of the settings in `c`. */
  function LoadSensor(env: Env, parseDuration: string -> Option<int>, c: Config): (r: Loaded)
    ensures r.1.Some? ==> r.0 == ZeroConfig
    ensures r.1.None? ==> r.0.appEnv == c.appEnv && r.0.logLevel == c.logLevel
    ensures r.1.None? ==> r.0.mqttBroker == c.mqttBroker && r.0.mqttPort == c.mqttPort
    ensures r.1.None? ==> r.0.mqttClientId == c.mqttClientId
    ensures r.1.None? ==> ParseUint16Base0(Setting(env, "BME280_ADDRESS", "0x76")) == Some(r.0.bme280Address as nat)
    ensures r.1.None? ==> parseDuration(Setting(env, "SENSOR_POLL_INTERVAL", "1s")) == Some(r.0.sensorPollInterval)
    ensures r.1.None? ==> r.0.sensorPollInterval > 0
    ensures r.1.None? ==> r.0.deviceStationId == Setting(env, "DEVICE_STATION_ID", "home")
  {
    var addrStr := Setting(env, "BME280_ADDRESS", "0x76");
    match ParseUint16Base0(addrStr)
    case None => (ZeroConfig, Some(InvalidValue("BME280_ADDRESS", addrStr)))
    case Some(addr) =>
      var pollStr := Setting(env, "SENSOR_POLL_INTERVAL", "1s");
      match parseDuration(pollStr)
      case None => (ZeroConfig, Some(InvalidValue("SENSOR_POLL_INTERVAL", pollStr)))
      case Some(poll) =>
        if poll <= 0 then (ZeroConfig, Some(NotPositive("SENSOR_POLL_INTERVAL", poll)))
        else
          var station := Setting(env, "DEVICE_STATION_ID", "home");
          (c.(bme280Address := addr, sensorPollInterval := poll, deviceStationId := station), None)
  }

  /** On success the MQTT settings are the trimmed, defaulted variables, the port an integer. */
  lemma LoadedMqttSettings(env: Env, parseDuration: string -> Option<int>)
    requires LoadFromEnv(env, parseDuration).1.None?
    ensures var c := LoadFromEnv(env, parseDuration).0;
      && c.mqttBroker == Setting(env, "MQTT_BROKER", "localhost")
      && Atoi(Setting(env, "MQTT_PORT", "1883")) == Some(c.mqttPort)
      && c.mqttClientId == Setting(env, "MQTT_CLIENT_ID", "cloudpico-gateway")
  {
  }

  /** On success the sensor address fits 16 bits, the poll interval is positive, and the station
      id is the trimmed, defaulted variable. */
  lemma LoadedSensorSettings(env: Env, parseDuration: string -> Option<int>)
    requires LoadFromEnv(env, parseDuration).1.None?
    ensures var c := LoadFromEnv(env, parseDuration).0;
      && ParseUint16Base0(Setting(env, "BME280_ADDRESS", "0x76")) == Some(c.bme280Address as nat)
      && parseDuration(Setting(env, "SENSOR_POLL_INTERVAL", "1s")) == Some(c.sensorPollInterval)
      && c.sensorPollInterval > 0
      && c.deviceStationId == Setting(env, "DEVICE_STATION_ID", "home")
  {
  }

  /** The default port text reads as 1883. */
  lemma DefaultPortParses()
    ensures Atoi("1883") == Some(1883)
  {
    assert "1883"[..3] == "188" && "188"[..2] == "18" && "18"[..1] == "1" && "1"[..0] == "";
    assert DecValue("1883") == 10 * DecValue("188") + 3;
    assert DecValue("188") == 10 * DecValue("18") + 8;
    assert DecValue("18") == 10 * DecValue("1") + 8;
  }

  /** The default address text "0x76" reads as hexadecimal 0x76. */
  lemma DefaultAddressParses()
    ensures ParseUint16Base0("0x76") == Some(0x76)
  {
    assert BaseOf("0x76") == (16, 2);
    assert "0x76"[2..] == "76";
    assert DropUnderscores("76") == "76";
    assert "76"[..1] == "7" && "7"[..0] == "";
    assert ValueIn("76", 16) == 16 * ValueIn("7", 16) + 6;
  }

  /** With nothing set: dev, Info, localhost:1883, client "cloudpico-gateway", sensor at 0x76,
      polled every second, station "home". */
  lemma EmptyEnvDefaults(parseDuration: string -> Option<int>)
    requires parseDuration("1s") == Some(1_000_000_000)
    ensures LoadFromEnv(map[], parseDuration)
      == (Config("dev", Info, "localhost", 1883, "cloudpico-gateway", 0x76, 1_000_000_000, "home"), None)
  {
    var env: Env := map[];
    assert forall key :: Getenv(env, key) == "";
    DefaultLogLevel(env);
    DefaultPortParses();
    DefaultAddressParses();
  }

  lemma {:induction false} NoUnderscoresKept(s: string)
    requires '_' !in s
    ensures DropUnderscores(s) == s
  {
    if s != [] {
      NoUnderscoresKept(s[1..]);
    }
  }

  lemma HexDigitsAgree(c: char)
    requires c in HexFormat.HexDigits
    ensures DigitValue36(c) == HexFormat.DigitValue(c) < 16 && c != '_'
  {
  }

  lemma ValueOfFour(h: string)
    requires |h| == 4 && forall i :: 0 <= i < 4 ==> DigitValue36(h[i]) < 16
    ensures ValueIn(h, 16)
      == 4096 * DigitValue36(h[0]) + 256 * DigitValue36(h[1]) + 16 * DigitValue36(h[2]) + DigitValue36(h[3])
  {
    var d0, d1, d2, d3 := DigitValue36(h[0]), DigitValue36(h[1]), DigitValue36(h[2]), DigitValue36(h[3]);
    assert h[..3][..2] == h[..2] && h[..2][..1] == h[..1] && h[..1][..0] == [];
    assert ValueIn(h[..1], 16) == d0;
    assert ValueIn(h[..2], 16) == 16 * d0 + d1;
    assert ValueIn(h[..3], 16) == 16 * (16 * d0 + d1) + d2;
  }

  /** "0x" followed by hex digits without underscores reads as their base-16 value. */
  lemma HexPrefixedParses(h: string)
    requires h != [] && '_' !in h
    requires forall i :: 0 <= i < |h| ==> DigitValue36(h[i]) < 16
    requires ValueIn(h, 16) <= 0xFFFF
    ensures ParseUint16Base0("0x" + h) == Some(ValueIn(h, 16))
  {
    var s := "0x" + h;
    HexPrefixFacts(h);
    NoUnderscoresKept(h);
    assert DropUnderscores(s[2..]) == h;
  }

  /** "0x" selects base 16 with two prefix characters, and adds no underscore. */
  lemma HexPrefixFacts(h: string)
    requires h != [] && '_' !in h
    ensures ("0x" + h)[2..] == h && BaseOf("0x" + h) == (16, 2) && '_' !in "0x" + h
  {
    var s := "0x" + h;
    assert s[2..] == h && s[0] == '0' && s[1] == 'x';
    assert BaseOf(s) == (16, 2);
    forall i | 0 <= i < |s| ensures s[i] != '_' {
      if i >= 2 {
        assert s[i] == h[i - 2];
      }
    }
    assert '_' !in s;
  }

  /** An address written as "0x" followed by its Hex4 digits, as the gateway logs it, reads back
      as the same address. */
  lemma Hex4AddressParses(v: LittleEndian.u16)
    ensures ParseUint16Base0("0x" + HexFormat.Hex4(v)) == Some(v as nat)
  {
    var h := HexFormat.Hex4(v);
    forall i | 0 <= i < 4 ensures DigitValue36(h[i]) == HexFormat.DigitValue(h[i]) < 16 && h[i] != '_' {
      HexDigitsAgree(h[i]);
    }
    assert '_' !in h by {
      assert forall i :: 0 <= i < |h| ==> h[i] != '_';
    }
    assert ValueIn(h, 16) == v as nat by {
      HexFormat.Hex4Value(v);
      ValueOfFour(h);
    }
    HexPrefixedParses(h);
  }
}
