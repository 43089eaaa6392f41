# cloudpico in Dafny

cloudpico is a small weather-station system. Sensor nodes (a TinyGo program and a C
firmware for the Raspberry Pi Pico W) broadcast each reading as a 22-byte little-endian
payload in a BLE advertisement. A gateway scans for those advertisements, decodes them, drops
repeated reading ids per radio address and republishes the readings over MQTT. A Go server
subscribes, validates the telemetry, stores it in SQLite, and serves a JSON API and an HTML
history view with a pagination bar. A migration tool manages the database schema.

This project models the parts of that chain that make decisions, and proves what they
promise:

- the payload codec: both firmware encoders and the gateway decoder, with
  decode(encode(x)) = x and its converse;
- the firmware advertisers' state and buffers;
- the gateway's per-address duplicate cache, its scan filter, hex formatting, MQTT client
  flags and configuration loading;
- on the server:
  - the telemetry validators, the MQTT subscriber's flags and the message handler;
  - the query, cookie and page parsers, the pagination bar and the paging arithmetic;
  - the repository's insert checks and row decoding;
  - the configuration loaders, database opening with the DSN rules, and the SQL logging wrapper;
- the migration runner and the tool's entry point;
- the I2C adapter of the C firmware's BME280 driver.

Library calls are parameters of the model:

- time parsing and formatting, `time.ParseDuration`, `url.ParseQuery`/`Encode`,
  `filepath.Abs`/`Dir`/`Clean`, `os.MkdirAll`;
- the clock;
- the broker, the database driver, the radio and the I2C bus.

Go's `select` over several ready channels becomes a sequence of observed outcomes.

Every module is one Dafny file. Shared modules:

- `Wrappers`: Option.
- `LittleEndian`: bytes and 32-bit little-endian layout.
- `GoText`: `strings.TrimSpace`; `strings.ToLower` restricted to the characters whose lower case
  is an ASCII letter (A-Z, U+0130 and U+212A), which decides every level and environment name the
  same way Go does; `strconv.Atoi`/`Itoa`; and `ParseUint` with base prefixes.
- `EnvConfig`: environment reading and the `parseLogLevel` shared by four packages.
- `Telemetry`: the shared telemetry record; time is an integer and 0 is Go's zero time.
- `Dsn`: the "file:" DSN rule shared by the migration tool and the server.

## Model

| member | source | states |
|---|---|---|
| LittleEndian.Inc32 | sensor/ble.go:76-77 | `counter++` on a uint32: one more, wrapping from 0xFFFFFFFF to 0 |
| LittleEndian.Le32 | gateway/internal/ble/parse.go:35-39 | the four little-endian bytes of a uint32, least significant first |
| LittleEndian.FromLe32OfLe32 | gateway/internal/ble/parse.go:35-39 | reading back four written bytes gives the original uint32 |
| LittleEndian.Le32OfFromLe32 | gateway/internal/ble/parse.go:35-39 | writing back a read uint32 gives the original four bytes |
| LittleEndian.Le32Injective | gateway/internal/ble/parse.go:35-39 | distinct uint32 values have distinct byte layouts |
| LittleEndian.PutUint32 | sensor/ble.go:68-72 | `binary.LittleEndian.PutUint32` writes exactly `a[off..off+4]` with the layout and leaves the rest of the array unchanged |
| Payload.Encode | sensor/ble.go:62-73 | the canonical 22-byte layout: magic 0x01 0xD0, device id, reading id, then the temperature, pressure and humidity bit patterns, each little-endian at its fixed offset |
| Payload.EncodedBySegments | csensor/ble_advertise.c:35-75 | a 22-byte buffer written field by field at those offsets is the canonical encoding |
| Payload.ParseSensorPayload | gateway/internal/ble/parse.go:28-47 | too short exactly when fewer than 22 bytes, checked before the magic; bad magic exactly when long enough with a wrong first or second byte; otherwise every field read little-endian from its offset; never a partial reading |
| Payload.ParseEncode | gateway/internal/ble/parse.go:28-47 | decoding an encoded reading returns that reading |
| Payload.EncodeParse | gateway/internal/ble/parse.go:28-47 | a successful decode determines the first 22 bytes: re-encoding gives them back |
| Payload.ParseIgnoresTail | gateway/internal/ble/parse.go:29-39 | two inputs that agree on their first 22 bytes decode identically |
| Payload.ParseExample | gateway/internal/ble/parse.go:9-14 | a concrete advertisement (device 0x12345678, reading 1, 25.0, 1000.0, 5.0) decodes to those fields |
| TinyGoSensor.Ble.constructor | sensor/ble.go:36-58 | NewBLE: a zeroed 22-byte buffer that the advertisement's manufacturer data shares |
| TinyGoSensor.Ble.EncodeReadingPayload | sensor/ble.go:62-73 | the buffer becomes the canonical encoding of (device id, id, readings), the advertised data is that same buffer, and the device id is unchanged |
| TinyGoSensor.Ble.Send | sensor/ble.go:75-93 | the id is the counter's old value and the counter steps by one (wrapping) even when Configure or Start fails; a failure returns 0 and its error, success returns the id |
| CAdvertise.AdvData | csensor/ble_advertise.c:80-100 | the advertising data is 29 bytes |
| CAdvertise.AdvDataStructures | csensor/ble_advertise.c:80-100 | parsed as advertising structures (Bluetooth Core Specification Vol 3, Part C, section 11) the data is exactly a Flags structure with value 0x06 and a Manufacturer Specific Data structure holding company id 0xFFFF little-endian and the 22-byte payload |
| CAdvertise.Le16 | csensor/ble_advertise.c:96-97 | the two company-id bytes are the little-endian value |
| CAdvertise.ClampAdvDataLen | csensor/ble_advertise.c:104-108 | the length never exceeds 31 and is unchanged when it fits |
| CAdvertise.Advertiser.constructor | csensor/ble_advertise.c:26-29 | program start: all statics zero, nothing advertised |
| CAdvertise.Advertiser.BuildManufacturerData | csensor/ble_advertise.c:35-75 | the 22-byte buffer holds exactly the canonical payload of the reading: magic, then the five fields little-endian |
| CAdvertise.Advertiser.BuildAdvData | csensor/ble_advertise.c:80-109 | `adv_data[..adv_data_len]` becomes the advertising data and `adv_data_len` is 29, so the truncation branch never fires |
| CAdvertise.Advertiser.Memcpy | csensor/ble_advertise.c:99 | the payload copy: the destination bytes from the offset on are the source bytes, and the bytes before it are kept |
| CAdvertise.Advertiser.Init | csensor/ble_advertise.c:149-183 | always returns 0; when already initialised nothing changes, otherwise the device id is stored and the reading id reset to 0; the ready flag is not set here |
| CAdvertise.Advertiser.PacketHandler | csensor/ble_advertise.c:114-147 | only a state event reporting WORKING sets the ready flag, after the radio was given the advertisement of the current reading id with zero readings; any other packet changes nothing |
| CAdvertise.Advertiser.Update | csensor/ble_advertise.c:185-207 | -1 with no change unless initialised and given data; otherwise the reading id steps by one first and the radio gets the advertisement of the new id and the readings |
| CAdvertise.Advertiser.Deinit | csensor/ble_advertise.c:209-220 | afterwards not ready; advertising stops only if it was initialised |
| CAdvertise.Advertiser.IsReady | csensor/ble_advertise.c:222-224 | returns the initialised flag |
| CAdvertise.FirstUpdateCarriesIdOne | csensor/ble_advertise.c:136-141 | after init, the WORKING event and one update, the gateway decodes the advertised payload to reading id 1 with that update's readings |
| Dedup.Insert | gateway/internal/ble/handler.go:47-51 | the id is always in the new set; a set within 500 stays within 500; the result is the set plus the id, or exactly {id} after an overflow |
| Dedup.SensorHandler.constructor | gateway/internal/ble/handler.go:24-29 | the seen-map starts empty |
| Dedup.SensorHandler.HandleMatch | gateway/internal/ble/handler.go:32-78 | a payload that fails to decode is ignored and leaves the map alone; a reading id already in the address's set is dropped with no change; a new id is recorded for the radio address before the publish, and a failed publish keeps it; the published telemetry is station "outdoor", now, the three readings and the reading id as sequence; every set stays within 500 |
| Dedup.RecordBounded | gateway/internal/ble/handler.go:47-51 | recording an id keeps every per-address set within 500 ids |
| Dedup.RecordLocal | gateway/internal/ble/handler.go:40-51 | recording touches only the given address's set, after which that id counts as a duplicate there |
| Dedup.InsertCases | gateway/internal/ble/handler.go:47-51 | a new id joins a set below 500; a set at exactly 500 is replaced by {id} |
| Dedup.ReplayWithinBound | gateway/internal/ble/handler.go:43-51 | while the ids seen fit within 500, a stream of ids leaves exactly the ids seen in the set, and the number published is the number of ids not already present |
| Dedup.DistinctIdsPublishedOnce | gateway/internal/ble/handler.go:43-51 | from an empty cache, each distinct id in a stream of at most 500 distinct ids is published exactly once, however often it repeats |
| Scanner.PrefixFrom | gateway/internal/ble/listen.go:227-231 | the comparison loop from position i succeeds exactly when every later byte agrees |
| Scanner.HasPrefix | gateway/internal/ble/listen.go:220-233 | true exactly when the prefix is empty, or the data is at least as long and agrees on every prefix position |
| Scanner.HasPrefixIsPrefix | gateway/internal/ble/listen.go:220-233 | `hasPrefix` is sequence prefix |
| Scanner.FirstPassing | gateway/internal/ble/listen.go:140-192 | the loop stops at the first entry that passes the company and prefix checks; every entry before it fails one |
| Scanner.OnScanResult | gateway/internal/ble/listen.go:81-204 | the callback hands onMatch exactly the decision for the advertisement, and nothing when onMatch is nil |
| Scanner.NameFilterBlocks | gateway/internal/ble/listen.go:118-128 | with a local-name filter, an advertisement with another name is never delivered, whatever its manufacturer data |
| Scanner.NoDataFilterMatchesAll | gateway/internal/ble/listen.go:130-136 | with no prefix and company 0, an advertisement passing the name check is delivered with company 0 and no data |
| Scanner.DecideFirstEntryWins | gateway/internal/ble/listen.go:138-192 | a match is delivered exactly when some entry passes, and then it carries the company id and data of the first passing entry |
| Scanner.CompanyZeroIsWildcard | gateway/internal/ble/listen.go:152-173 | a filter company of 0 accepts any company, so only the prefix decides; any other company id must match exactly |
| Scanner.RunResult | gateway/internal/ble/listen.go:61-217 | an enable failure is reported with the adapter name; after Scan, a cancelled context gives nil even if Scan failed; otherwise a Scan error is wrapped |
| Scanner.AdapterName | gateway/internal/ble/listen.go:43-46 | the adapter name is never empty, and a configured one is kept |
| HexFormat.DigitValue | gateway/internal/utils/hex.go:6 | the value of a hex digit is below 16 and indexes back to that digit |
| HexFormat.Hex4 | gateway/internal/utils/hex.go:5-13 | four characters, each drawn from "0123456789ABCDEF" |
| HexFormat.Hex4Value | gateway/internal/utils/hex.go:7-12 | the four digits, most significant first, spell the value |
| HexFormat.ByteHexValue | gateway/internal/utils/hex.go:20 | two digits whose value is the byte, high nibble first |
| HexFormat.BytesToHex | gateway/internal/utils/hex.go:16-23 | the loop's output is the hex string of the bytes |
| HexFormat.HexOfBytesLength | gateway/internal/utils/hex.go:18-22 | the hex string has two characters per byte |
| HexFormat.HexOfBytesAt | gateway/internal/utils/hex.go:19-21 | characters 2i and 2i+1 are the high and low nibble of byte i |
| HexFormat.HexOfBytesAppend | gateway/internal/utils/hex.go:16-23 | the hex string of a concatenation is the concatenation of the hex strings |
| HexFormat.HexOfBytesInjective | gateway/internal/utils/hex.go:16-23 | different byte strings have different hex strings |
| GatewayMqtt.TopicsDistinct | gateway/internal/mqtt/client.go:173-215 | distinct stations publish on distinct telemetry and health topics, and no telemetry topic is a health topic |
| GatewayMqtt.ConnectRun | gateway/internal/mqtt/client.go:87-140 | the connect loop makes at most one broker attempt per round, a stopped client fails without an attempt ("client stopped" unless the context was already done), and success always comes from an attempt |
| GatewayMqtt.StampTelemetry | gateway/internal/mqtt/client.go:183-186 | the station id is overwritten, a zero timestamp becomes now, every other field is kept |
| GatewayMqtt.StampHealth | gateway/internal/mqtt/client.go:225-227 | a zero last-seen time becomes now, every other field is kept |
| GatewayMqtt.DeliveryError | gateway/internal/mqtt/client.go:193-203 | a publish reports an error exactly when the broker did not confirm delivery (timeout or error) |
| GatewayMqtt.Client.constructor | gateway/internal/mqtt/client.go:47-76 | a new client is disconnected, not stopped and has made no broker calls |
| GatewayMqtt.Client.IsConnected | gateway/internal/mqtt/client.go:257-261 | connected exactly when the flag is set and the broker connection is live |
| GatewayMqtt.Client.Connect | gateway/internal/mqtt/client.go:79-140 | an already connected client returns nil without calling the broker; otherwise the result and the broker calls are those of the connect loop, and the client is connected exactly when it succeeded |
| GatewayMqtt.Client.PublishTelemetry | gateway/internal/mqtt/client.go:172-211 | not connected gives "mqtt client not connected" and no publish; a marshal error gives no publish; otherwise exactly one QoS 1, non-retained publish of the stamped telemetry on stations/<id>/telemetry, with the delivery error |
| GatewayMqtt.Client.PublishStationHealth | gateway/internal/mqtt/client.go:214-254 | as for telemetry, on stations/<id>/health and retained |
| GatewayMqtt.Client.Disconnect | gateway/internal/mqtt/client.go:264-276 | the client ends stopped and disconnected, and calls the broker's disconnect only if it was connected |
| GatewayConfig.LoadFromEnv | gateway/internal/config/config.go:24-99 | every error comes with the zero Config; an APP_ENV error comes first, then a LOG_LEVEL error; on success APP_ENV is dev or prod and the level is the parsed LOG_LEVEL |
| GatewayConfig.LoadMqtt | gateway/internal/config/config.go:44-99 | on success the broker, port (a valid integer), client id, BME280 address (a 16-bit value in base 0), poll interval (parsed and positive) and station id are the trimmed variables or their defaults |
| GatewayConfig.LoadSensor | gateway/internal/config/config.go:63-99 | the BME280 address, poll interval and station id are read as stated, and the fields read earlier are kept |
| GatewayConfig.LoadedMqttSettings | gateway/internal/config/config.go:44-61 | a successful load carries the MQTT broker, port and client id read from the environment |
| GatewayConfig.LoadedSensorSettings | gateway/internal/config/config.go:63-87 | a successful load carries the sensor address, a positive poll interval and the station id read from the environment |
| GatewayConfig.DefaultPortParses | gateway/internal/config/config.go:49-53 | the default port text "1883" parses as 1883 |
| GatewayConfig.DefaultAddressParses | gateway/internal/config/config.go:63-67 | the default address "0x76" parses as 0x76 |
| GatewayConfig.EmptyEnvDefaults | gateway/internal/config/config.go:24-99 | with nothing set the Config is dev, info, localhost:1883, cloudpico-gateway, address 0x76, a one-second interval and station home |
| GatewayConfig.NoUnderscoresKept | gateway/internal/config/config.go:67 | text without underscores is left unchanged when ParseUint strips underscores |
| GatewayConfig.HexDigitsAgree | gateway/internal/config/config.go:67 | ParseUint's digit values agree with the gateway's hex digits |
| GatewayConfig.HexPrefixedParses | gateway/internal/config/config.go:67 | "0x" followed by hex digits whose value fits in 16 bits parses to that value |
| GatewayConfig.Hex4AddressParses | gateway/internal/config/config.go:67 | any 16-bit address written as "0x" and four hex digits parses back to itself |
| GoText.TrimLeftFacts | gateway/internal/config/config.go:25 | TrimLeft removes exactly a prefix of white space and leaves a string that starts with no space |
| GoText.TrimRightFacts | gateway/internal/config/config.go:25 | TrimRight removes exactly a suffix of white space and leaves a string that ends with no space |
| GoText.TrimSpaceFacts | gateway/internal/config/config.go:25 | TrimSpace gives the contiguous middle of the string, with only white space removed on each side and none left at either end |
| GoText.TrimSpaceFixed | gateway/internal/config/config.go:25 | a string with no white space at either end is its own trim |
| GoText.TrimSpaceIdempotent | gateway/internal/config/config.go:25 | trimming twice is trimming once |
| GoText.LowerChar | gateway/internal/config/config.go:102 | the lower-cased character is a lower-case ASCII letter exactly when the input is an ASCII letter or one of the two non-ASCII letters that fold to one, and white space stays white space |
| GoText.ToLower | gateway/internal/config/config.go:102 | lower-casing works character by character and keeps the length |
| GoText.ToLowerIdempotent | gateway/internal/config/config.go:102 | lower-casing twice is lower-casing once |
| GoText.ToLowerTrimSpace | gateway/internal/config/config.go:102 | lower-casing and trimming commute |
| GoText.Atoi | gateway/internal/config/config.go:53 | a parsed value fits in 64 bits, comes from non-empty text starting with a digit or sign, and its sign follows the leading '-' |
| GoText.Digits | server/internal/db/sqlitelogger.go:193-194 | the decimal digits of n are non-empty, all digits, read back as n and have no leading zero |
| GoText.AtoiItoa | server/internal/db/sqlitelogger.go:193-194 | every 64-bit integer written in decimal parses back to itself |
| GoText.ParseUint16Base0 | gateway/internal/config/config.go:67 | a parsed value fits in 16 bits |
| EnvConfig.Setting | gateway/internal/config/config.go:44-47 | a setting is the trimmed variable, or the default exactly when the trimmed variable is empty |
| EnvConfig.AppEnv | gateway/internal/config/config.go:25-33 | APP_ENV defaults to dev and is accepted exactly when it is dev or prod; otherwise the error quotes the value |
| EnvConfig.LevelOfKey | gateway/internal/config/config.go:102-113 | exactly debug, info, warn, warning and error name a level |
| EnvConfig.ParseLogLevel | gateway/internal/config/config.go:101-114 | the level name is accepted exactly when its trimmed, lower-cased form is one of the five names; otherwise the result is Info with an error quoting the argument |
| EnvConfig.KeyOfWord | gateway/internal/config/config.go:102 | a lower-case word is its own key |
| EnvConfig.WarnAliases | gateway/internal/config/config.go:102-112 | a name parses to Warn without error exactly when its trimmed, lower-cased form is "warn" or "warning" |
| EnvConfig.ParseLogLevelNormalises | gateway/internal/config/config.go:102 | case and surrounding white space do not change the parsed level or whether it is accepted |
| EnvConfig.LogLevel | gateway/internal/config/config.go:35-42 | LOG_LEVEL is parsed after trimming, with "info" when it is empty |
| EnvConfig.ParseInfo | gateway/internal/config/config.go:105-106 | "info" gives Info without error |
| EnvConfig.DefaultLogLevel | gateway/internal/config/config.go:35-39 | an unset LOG_LEVEL gives Info without error |
| EnvConfig.DbSettingsFromEnv | server/internal/config/config.go:64-99 | every error comes with zero settings; on success the driver, DSN, path, the two connection counts (valid integers) and the lifetime (a parsed duration) are the trimmed variables or their defaults |
| EnvConfig.DefaultCountParses | server/internal/config/config.go:74-78 | the default count text "1" parses as 1 |
| EnvConfig.DbSettingsDefaults | server/internal/config/config.go:64-99 | with nothing set: sqlite3, no DSN, ../dev/sqlite/app.db, one open and one idle connection, no lifetime limit |
| ServerConfig.LoadFromEnv | server/internal/config/config.go:30-113 | every error comes with the zero Config; APP_ENV errors first, then LOG_LEVEL errors; on success APP_ENV is dev or prod and the level is the parsed LOG_LEVEL |
| ServerConfig.LoadHttp | server/internal/config/config.go:50-113 | a failing filepath.Abs gives the STATIC_DIR error; on success the HTTP address, the absolute static directory and the database settings are those read from the environment |
| ServerConfig.EmptyEnvDefaults | server/internal/config/config.go:30-113 | with nothing set the Config is dev, info, :8080, the absolute form of "static" and the default database settings |
| ServerPkgConfig.LoadFromEnv | server/pkg/config/config.go:25-98 | errors come with the zero Config in the order APP_ENV, LOG_LEVEL, database settings; on success every field is the one read from the environment |
| ServerPkgConfig.EmptyEnvDefaults | server/pkg/config/config.go:25-98 | with nothing set the load succeeds with dev, info and :8080 |
| ServerPkgConfig.OtherEnvsRejected | server/pkg/config/config.go:30-34 | staging, qa and the upper-case DEV are rejected with an error quoting them |
| ServerMain.LoadConfigFromEnv | server/cmd/main.go:57-83 | APP_ENV errors first, then LOG_LEVEL errors, each with the zero Config; on success the Config is the APP_ENV (dev or prod) and the parsed level |
| ServerMain.InvalidLevelFails | server/cmd/main.go:69-77 | an unknown LOG_LEVEL fails with an error quoting the trimmed value |
| ReadingsQuery.ParseLimit | server/internal/modules/weather/controller/utils.go:52-65 | the limit is 100 when absent and otherwise accepted exactly when it is an integer in [1, 1000]; each way of failing has its own message and the zero value |
| ReadingsQuery.ParseLatestQuery | server/internal/modules/weather/controller/utils.go:70-87 | the latest-readings query follows the limit rule on its "limit" parameter |
| ReadingsQuery.ParseReadingsQuery | server/internal/modules/weather/controller/utils.go:33-68 | every error returns the zero window; on success the bounds are the parsed RFC 3339 times (zero when absent), they are not inverted and the limit follows the limit rule (the same function is server/pkg/httpapi/handlers.go:118-153) |
| ReadingsQuery.CheckOrder | server/pkg/httpapi/handlers.go:118-153 | the checks run in the order from, to, their order, limit, and the first failing one names the error |
| ReadingsQuery.MessagesDistinct | server/internal/modules/weather/controller/utils.go:39-62 | the six error messages are pairwise distinct, so each names its cause |
| ReadingsQuery.EmptyQuery | server/internal/modules/weather/controller/utils.go:33-68 | an empty query gives the unbounded window with limit 100 |
| ReadingsQuery.EqualBoundsAccepted | server/internal/modules/weather/controller/utils.go:48-50 | equal from and to bounds are accepted |
| ReadingsQuery.ZeroAsNull | server/internal/modules/weather/controller/utils.go:113-118 | a time maps to null exactly when it is the zero time, and otherwise to itself |
| ReadingsQuery.ZeroAsNullInverse | server/pkg/httpapi/handlers.go:155-160 | reading null back as the zero time recovers the original time |
| WeatherUtils.ResolveHistoryRange | server/internal/modules/weather/controller/utils.go:89-98 | a known key gives its range; the empty or an unknown key gives the 24h range; the flag is set exactly for the empty or a known key |
| WeatherUtils.PageOf | server/internal/modules/weather/controller/utils.go:101-111 | the page is at least 1, is the parsed number whenever that is at least 1, and is otherwise 1 |
| WeatherUtils.ParseHistoryPage | server/internal/modules/weather/controller/utils.go:101-111 | the "page" parameter gives a page of at least 1, and any other page than 1 was given literally |
| WeatherUtils.ReadWeatherStateCookie | server/internal/modules/weather/controller/utils.go:129-150 | a missing or unparsable cookie gives the zero state; otherwise the range is empty or known and the page is at least 1 |
| WeatherUtils.NormalRange | server/internal/modules/weather/controller/utils.go:155-157 | the stored range is always a known key and a known key is kept |
| WeatherUtils.WriteWeatherStateCookie | server/internal/modules/weather/controller/utils.go:154-175 | the cookie is weather_state, path "/", one year, HttpOnly, SameSite Lax, not Secure, and holds the encoded station, normalised range and page (at least 1) |
| WeatherUtils.CookieRoundTrip | server/internal/modules/weather/controller/utils.go:129-175 | reading back a written cookie gives the station, the normalised range and the page clamped to at least 1 |
| WeatherPagination.ShownFromFacts | server/internal/modules/weather/controller/handlers.go:185-195 | the reference enumeration lists, in increasing order, exactly the shown pages: the first, the last and those within two of the current page |
| WeatherPagination.ShownPagesFacts | server/internal/modules/weather/controller/handlers.go:185-195 | with at least one page, the shown pages start at page 1, increase, and are exactly the first, the last and the window around the current page |
| WeatherPagination.PagesAppend | server/internal/modules/weather/controller/handlers.go:196-205 | the pages of a concatenated bar are the concatenated pages |
| WeatherPagination.BarPages | server/internal/modules/weather/controller/handlers.go:196-205 | the bar lists exactly the given pages, in order, once ellipses are dropped |
| WeatherPagination.BarEnds | server/internal/modules/weather/controller/handlers.go:196-205 | the bar ends with the last page and starts with an ellipsis only when the first page skips pages |
| WeatherPagination.BarGaps | server/internal/modules/weather/controller/handlers.go:199-201 | every inner ellipsis sits between two page links that skip at least one page |
| WeatherPagination.BarSteps | server/internal/modules/weather/controller/handlers.go:199-202 | two adjacent page links are consecutive pages |
| WeatherPagination.PageItemsShape | server/internal/modules/weather/controller/handlers.go:179-206 | the bar's pages are increasing and exactly the shown ones, it starts and ends with a page, ellipses stand for skipped pages and adjacent links are consecutive |
| WeatherPagination.PageItemsPages | server/internal/modules/weather/controller/handlers.go:179-206 | the bar's page numbers increase and are exactly the first, the last and the window around the current page |
| WeatherPagination.PageItemsLayout | server/internal/modules/weather/controller/handlers.go:196-205 | the bar starts and ends with a page, each ellipsis sits between pages more than one apart, and neighbouring links are consecutive pages |
| WeatherPagination.BuildHistoryPageItems | server/internal/modules/weather/controller/handlers.go:179-206 | the method's items are the specified bar |
| WeatherPagination.ShownSet | server/internal/modules/weather/controller/handlers.go:185-190 | the collected set holds exactly the shown pages |
| WeatherPagination.EmitItems | server/internal/modules/weather/controller/handlers.go:196-205 | the item loop produces the bar over the sorted pages |
| WeatherPagination.BarSnoc | server/internal/modules/weather/controller/handlers.go:196-205 | one more page extends the bar by its ellipsis, when it skips pages after the previous one, and its link |
| WeatherPagination.SortedElements | server/internal/modules/weather/controller/handlers.go:191-195 | the sorted pages are strictly increasing and exactly the set's elements |
| WeatherPagination.Minimum | server/internal/modules/weather/controller/handlers.go:195 | the minimum is in the set and no element is smaller |
| WeatherPagination.IncreasingUnique | server/internal/modules/weather/controller/handlers.go:195 | two strictly increasing sequences with the same elements are equal, so sorting the set has one result |
| WeatherPagination.TestVectors | server/internal/modules/weather/controller/handlers_test.go:412-440 | no items for zero or negative totals, a single page, and two pages without an ellipsis |
| WeatherPagination.TestVectorFirst | server/internal/modules/weather/controller/handlers_test.go:442-455 | five pages at page 1: 1 2 3 … 5 |
| WeatherPagination.TestVectorLast | server/internal/modules/weather/controller/handlers_test.go:457-470 | five pages at page 5: 1 … 3 4 5 |
| WeatherPagination.TestVectorAllInWindow | server/internal/modules/weather/controller/handlers_test.go:523-536 | five pages at page 3: every page, no ellipsis |
| WeatherPagination.TestVectorOutOfRange | server/internal/modules/weather/controller/handlers_test.go:538-550 | five pages at page 100: 1 … 5 (the current page is not validated) |
| WeatherPagination.TestVectorMiddle | server/internal/modules/weather/controller/handlers_test.go:472-489 | ten pages at page 5: 1 … 3 4 5 6 7 … 10 |
| WeatherPagination.TestVectorSecond | server/internal/modules/weather/controller/handlers_test.go:491-505 | ten pages at page 2: 1 2 3 4 … 10 |
| WeatherPagination.TestVectorSecondToLast | server/internal/modules/weather/controller/handlers_test.go:507-521 | ten pages at page 9: 1 … 7 8 9 10 |
| WeatherHandlers.QueryOrCookie | server/internal/modules/weather/controller/handlers.go:217-220 | a query parameter that is set wins over the cookie's value |
| WeatherHandlers.SelectHistory | server/internal/modules/weather/controller/handlers.go:93-106 | the station is the query's, else the cookie's, else the first station's; the range is the query's, else the cookie's, else 24h |
| WeatherHandlers.HandleHistory | server/internal/modules/weather/controller/handlers.go:85-123 | a failed station lookup is a 500 "failed to load stations"; otherwise the page offers the stations, the selected station and range, and writes them back with the cookie's page |
| WeatherHandlers.PartialRange | server/internal/modules/weather/controller/handlers.go:217-229 | the resolved range is always known: the requested (or cookie) key when it is known, 24h otherwise |
| WeatherHandlers.RequestedPage | server/internal/modules/weather/controller/handlers.go:236-243 | without a page parameter the page resets to 1 when the station or range changed, and is the cookie's page otherwise; an explicit page is parsed as usual |
| WeatherHandlers.NameOf | server/internal/modules/weather/controller/handlers.go:278-283 | a found name belongs to a station with the id; an id no station has gives no name; the first match wins |
| WeatherHandlers.ShownStation | server/internal/modules/weather/controller/handlers.go:245-288 | no station is shown only when none is requested and there are none; the first station is the fallback; a requested id is kept, with its name or "Unknown Station" |
| WeatherHandlers.TotalPages | server/internal/modules/weather/controller/handlers.go:299-302 | at least one page, and exactly the number of 20-reading pages that hold the count |
| WeatherHandlers.ClampPage | server/internal/modules/weather/controller/handlers.go:303-305 | a page inside [1, total] is kept and any other becomes 1 |
| WeatherHandlers.OffsetWithinCount | server/internal/modules/weather/controller/handlers.go:299-306 | the offset of the shown page is never negative and lies inside the readings whenever there are any |
| WeatherHandlers.PagedData | server/internal/modules/weather/controller/handlers.go:315-328 | the page data carries the total pages, the clamped page, the previous and next flags and pages, the pagination bar, the station and the range |
| WeatherHandlers.HandleHistoryPartial | server/internal/modules/weather/controller/handlers.go:208-340 | a failed station lookup is a 500; with no stations and none requested the single empty page is shown without a query or cookie |
| WeatherHandlers.PartialShownFacts | server/internal/modules/weather/controller/handlers.go:293-329 | a shown page lies in [1, total], is read at offset (page-1)*20 within the count, uses the resolved range and writes the station, range and page back to the cookie |
| WeatherHandlers.ChangeResetsPage | server/internal/modules/weather/controller/handlers.go:237-239 | changing station or range without a page parameter shows page 1 |
| WeatherHandlers.SameViewKeepsPage | server/internal/modules/weather/controller/handlers.go:240-242 | the same station and range without a page parameter show the cookie's page when it exists |
| HttpApi.WriteError | server/pkg/httpapi/handlers.go:171-176 | an error body holds the status text and the message |
| HttpApi.GenerateReadings | server/pkg/httpapi/handlers.go:88-106 | the loop's items are the candidates, one per minute back from now, that pass the bounds, in order |
| HttpApi.WindowFacts | server/pkg/httpapi/handlers.go:91-106 | the items number at most the limit, all carry the station id and pass the bounds, and every candidate that passes the bounds is among them |
| HttpApi.WindowDecreasing | server/pkg/httpapi/handlers.go:91-92 | item times strictly decrease |
| HttpApi.HandleReadings | server/pkg/httpapi/handlers.go:75-116 | a missing station id is a 400 before the query is read; a bad query is a 400 with its message; otherwise the response echoes the id, the bounds (null when zero), the limit and the generated readings |
| HttpApi.ResponseBounded | server/pkg/httpapi/handlers.go:89-114 | a successful response has a limit in [1, 1000], at most that many items, strictly decreasing times and every item within the bounds |
| TelemetryValidation.ValidateTelemetry | server/internal/modules/weather/service/mqtt.go:15-44 | the checks run in the order station id, timestamp, humidity in [0, 100], pressure positive, at least one reading, and the first failing one is reported (server/internal/mqtt/mqtt.go:193-222 is the same function) |
| TelemetryValidation.ValidateAcceptsValid | server/internal/mqtt/mqtt.go:193-222 | validation succeeds exactly for telemetry with a station id, a non-zero timestamp, an in-range humidity and a positive pressure when present, and at least one reading |
| TelemetryValidation.BatteryAndSequenceIgnored | server/internal/modules/weather/service/mqtt.go:39-41 | battery and sequence never change the verdict, so they cannot stand in for a reading |
| TelemetryValidation.HumidityEndpointsAccepted | server/internal/modules/weather/service/mqtt.go:26-30 | humidity 0 and 100 are accepted |
| WeatherService.FormatOptFloat | server/internal/modules/weather/service/mqtt.go:55-60 | an absent value is "-", a present one its formatted value followed by the unit |
| WeatherService.FormatOptInt | server/internal/modules/weather/service/mqtt.go:63-68 | an absent value is "-", a present one its decimal text |
| WeatherService.FormatOptIntReadsBack | server/internal/modules/weather/service/mqtt.go:67 | the decimal text of a present 64-bit value reads back as that value |
| WeatherService.HandleMessage | server/internal/modules/weather/service/mqtt.go:71-104 | nothing is inserted when parsing or validation fails, and the error says which; valid telemetry is inserted with its station id, timestamp and three readings unchanged, and the insert's error is returned |
| ServerMqtt.EndOfWait | server/internal/mqtt/mqtt.go:98-116 | the connect wait ends at the first poll where the token completed or the context or stop channel fired |
| ServerMqtt.SubscribeError | server/internal/mqtt/mqtt.go:127-150 | subscribing succeeds exactly when the subscriber is connected and the broker confirms; a disconnected subscriber gets "mqtt client not connected" |
| ServerMqtt.Subscriber.constructor | server/internal/mqtt/mqtt.go:41-77 | a new subscriber is disconnected, not stopped, has no handler and has made no broker calls |
| ServerMqtt.Subscriber.SetMessageHandler | server/internal/mqtt/mqtt.go:37-39 | only the handler changes |
| ServerMqtt.Subscriber.SetConnected | server/internal/mqtt/mqtt.go:64-73 | the connect and connection-lost callbacks set the flag to true and false, and nothing else changes |
| ServerMqtt.Subscriber.IsConnected | server/internal/mqtt/mqtt.go:225-230 | connected exactly when the flag is set and the broker connection is live |
| ServerMqtt.Subscriber.Connect | server/internal/mqtt/mqtt.go:80-125 | a stopped subscriber fails with "subscriber stopped" without a broker call; a connected one returns nil unchanged; otherwise one connect call, and a cancelled or stopped wait or a failed subscribe disconnects before returning its error; the flag stays as it was unless the connect completes, when the OnConnect callback has set it |
| ServerMqtt.Subscriber.Subscribe | server/internal/mqtt/mqtt.go:127-150 | a connected subscriber subscribes to its topic with QoS 1; the error is as stated by SubscribeError |
| ServerMqtt.Subscriber.HandleMessage | server/internal/mqtt/mqtt.go:152-191 | the handler receives the telemetry exactly when one is set and the payload parses and validates, and nothing else changes |
| ServerMqtt.Subscriber.Disconnect | server/internal/mqtt/mqtt.go:234-252 | the subscriber ends stopped and disconnected; it unsubscribes only when connected and always disconnects the client; calling it again is allowed |
| WeatherRepository.ResolveStation | server/internal/modules/weather/repository/repository.go:136-148 | a station id that parses as an integer is used directly; otherwise a failed lookup, a found name's id, or "station not found" |
| WeatherRepository.CheckValues | server/internal/modules/weather/repository/repository.go:150-162 | the values pass exactly when a present humidity lies in [0, 100] and a present pressure is positive; humidity is checked first |
| WeatherRepository.InsertOutcome | server/internal/modules/weather/repository/repository.go:127-185 | an insert produces a row exactly when it reports no error |
| WeatherRepository.Repository.constructor | server/internal/modules/weather/repository/repository.go:44-46 | a new repository has the given stations and no readings |
| WeatherRepository.Repository.InsertReading | server/internal/modules/weather/repository/repository.go:127-185 | the error is the insert's outcome, and the readings gain exactly the one row when there is none |
| WeatherRepository.UnknownNameFirst | server/internal/modules/weather/repository/repository.go:136-162 | an unknown station name fails with "station not found" whatever the values, so resolution runs before validation |
| WeatherRepository.StoredRow | server/internal/modules/weather/repository/repository.go:164-179 | a stored row has the resolved station, the formatted timestamp and the three readings as given (absent ones as NULL), and all checks passed |
| WeatherRepository.ParseTimestamp | server/internal/modules/weather/repository/repository.go:113-120 | the timestamp is parsed as RFC3339Nano, falling back to RFC3339, and fails only when both fail |
| WeatherRepository.ScanAll | server/internal/modules/weather/repository/repository.go:105-125 | a row that fails to scan or whose timestamp parses in neither format yields no readings; otherwise one reading per row is returned, alongside rows.Err() when that is set |
| WeatherRepository.ScanAllFacts | server/internal/modules/weather/repository/repository.go:105-125 | the readings are kept exactly when every row scans and has a parsable timestamp; then reading i carries row i's values and parsed time and the error is exactly rows.Err() |
| WeatherRepository.ScanReadings | server/internal/modules/weather/repository/repository.go:105-125 | the loop's readings and error are those of the scan specification |
| Migrate.ParseMigrationFilename | tools/migrate/migrate.go:107-113 | an accepted name is four digits, an underscore, a non-empty name and ".sql", and the parts are returned |
| Migrate.ParseFileName | tools/migrate/migrate.go:107-113 | every such file name is accepted with its version and name |
| Migrate.RejectedNames | tools/migrate/migrate.go:23 | a three-digit version, an empty name and a trailing suffix are rejected; "0001_init.sql" is accepted |
| Migrate.LexLessIrreflexive | tools/migrate/migrate.go:61 | no version sorts before itself |
| Migrate.LexLessTrichotomy | tools/migrate/migrate.go:61 | two different versions are ordered one way or the other |
| Migrate.LexLessAsymmetric | tools/migrate/migrate.go:61 | two versions are never each before the other |
| Migrate.LexLessTransitive | tools/migrate/migrate.go:61 | the version order is transitive |
| Migrate.NotLaterTransitive | tools/migrate/migrate.go:61 | "not later than" is transitive |
| Migrate.InsertByVersion | tools/migrate/migrate.go:61 | inserting keeps every migration and adds the new one |
| Migrate.InsertByVersionSorted | tools/migrate/migrate.go:61 | inserting into a version-ordered list keeps it ordered |
| Migrate.SortByVersion | tools/migrate/migrate.go:61 | sorting is a permutation |
| Migrate.SortByVersionSorted | tools/migrate/migrate.go:61 | the sorted pending list is in ascending version order and a permutation of the input |
| Migrate.Collect | tools/migrate/migrate.go:42-59 | a read failure returns no pending migrations; otherwise at most one per entry |
| Migrate.CollectFacts | tools/migrate/migrate.go:42-59 | the pending migrations are exactly the non-directory entries with a well-formed name whose version is not applied, with their bodies |
| Migrate.CollectPending | tools/migrate/migrate.go:42-59 | the loop's pending list and error are those of the collection specification |
| Migrate.ApplyOne | tools/migrate/migrate.go:115-124 | a successful apply runs the body and then records the version and name; a failed one records nothing |
| Migrate.ApplyAllFacts | tools/migrate/migrate.go:63-68 | the apply loop completes some first k migrations in order, recording each after its body, and either finishes or stops at migration k with its file name in the error, nothing after it running |
| Migrate.RowsAppend | tools/migrate/migrate.go:63-68 | the recorded rows of a concatenation are the concatenated rows |
| Migrate.BodiesAppend | tools/migrate/migrate.go:63-68 | the executed bodies of a concatenation are the concatenated bodies |
| Migrate.NeverReapplied | tools/migrate/migrate.go:32-53 | a version already recorded is never among the migrations a run applies |
| Migrate.Migrator.constructor | tools/migrate/migrate.go:79-88 | the table starts with the given rows and nothing executed |
| Migrate.Migrator.AppliedVersions | tools/migrate/migrate.go:90-105 | the applied map holds exactly the recorded versions |
| Migrate.Migrator.Apply | tools/migrate/migrate.go:115-124 | the new state and error are those of a single apply |
| Migrate.Migrator.Run | tools/migrate/migrate.go:27-71 | the new state and error are those of the run specification: table, applied versions, pending collection, version sort, apply loop |
| Dsn.FileDsnParts | tools/main.go:71-87 | the DSN starts with "file:" and ends with the fixed parameters after one separator; before it stands the path, prefixed with "file:" unless it has the scheme; the separator is "&" exactly when a "file:" path already has a query, "?" otherwise (server/internal/db/db.go:73-89 is the same rule) |
| Dsn.SchemeOptional | server/internal/db/db.go:79-89 | a plain path and the same path with "file:" in front give the same DSN when the path has no query |
| Dsn.DefaultPathDsn | tools/main.go:17-21 | the default database path gives "file:../dev/sqlite/app.db?" followed by the parameters |
| ToolsMain.DbPath | tools/main.go:17-21 | SQLITE_PATH as given, or the default path when it is empty, then cleaned |
| ToolsMain.Open | tools/main.go:52-69 | a handle is returned exactly when open and ping succeed, on the DSN of the path; an open error wins over a ping error |
| ToolsMain.ToolMain | tools/main.go:16-50 | the exit status is 0 exactly when the database opens, the command is migrate and the migrations succeed; an open failure wins; a missing command is a usage error and any other command is unknown |
| ToolsMain.DefaultDatabase | tools/main.go:17-58 | without SQLITE_PATH the tool opens the default database's DSN |
| ServerDb.BuildDsn | server/internal/db/db.go:54-90 | a configured DSN is returned verbatim without creating a directory; otherwise the directory is created exactly when it is not ".", a failure to create it is the error, and the DSN follows the "file:" rule |
| ServerDb.PoolSettings | server/internal/db/db.go:27-36 | the open limit is set only when positive, the idle limit only when not negative, the lifetime only when positive, each to the configured value |
| ServerDb.Open | server/internal/db/db.go:15-45 | a handle is returned exactly when there is no error; a DSN or open error returns it without a handle; a failed ping closes the handle it opened; a returned handle is fresh, open, on the configured driver and DSN, with the pool settings applied |
| ServerDb.Close | server/internal/db/db.go:47-52 | closing nil returns nil; otherwise the handle is closed and its error returned |
| SqlLogger.CharsAscii | server/internal/db/sqlitelogger.go:186-196 | the bytes of an ASCII text read back as that text |
| SqlLogger.ItoaIsAscii | server/internal/db/sqlitelogger.go:193-194 | decimal text is ASCII |
| SqlLogger.FormatArg | server/internal/db/sqlitelogger.go:186-196 | nil is "NULL", a byte slice is its bytes as a string, a string is itself and a boolean is "true" or "false" |
| SqlLogger.FormatArgInt | server/internal/db/sqlitelogger.go:193-194 | a 64-bit integer argument is logged as decimal text that reads back as the integer |
| SqlLogger.ArgTextSplits | server/internal/db/sqlitelogger.go:169-170 | a named argument's text is the name, one "=", then the formatted value, and splits back at its first "=" |
| SqlLogger.NamedValuesToSlice | server/internal/db/sqlitelogger.go:166-176 | the slice has one entry per argument, in order, each "name=value" for a named argument and the formatted value otherwise |
| SqlLogger.ValuesOf | server/internal/db/sqlitelogger.go:178-184 | the values keep the arguments' length, order and values |
| SqlLogger.NamedValuesToValues | server/internal/db/sqlitelogger.go:178-184 | the loop's slice is the arguments' values in order |
| SqlLogger.LogArgs | server/internal/db/sqlitelogger.go:166-176 | the logged arguments are the argument texts, one per argument, in order |
| SqlLogger.Logger.Debug | server/internal/db/sqlitelogger.go:157-164 | a debug record is appended and nothing else changes |
| SqlLogger.LoggingStmt.constructor | server/internal/db/sqlitelogger.go:71-81 | a statement keeps its query text, its connection's logger and the wrapped statement |
| SqlLogger.LoggingStmt.NumInput | server/internal/db/sqlitelogger.go:150-155 | the wrapped statement's count, or -1 when it does not report one |
| SqlLogger.LoggingStmt.Exec | server/internal/db/sqlitelogger.go:107-111 | one "exec" record with the SQL text and the arguments, then the call is delegated unchanged |
| SqlLogger.LoggingStmt.ExecContext | server/internal/db/sqlitelogger.go:114-123 | one "exec" record with the SQL text and the formatted arguments, then the context call is delegated, or a plain Exec with the bare values when the statement lacks it |
| SqlLogger.LoggingStmt.Query | server/internal/db/sqlitelogger.go:126-130 | one "query" record with the SQL text and the arguments, then the call is delegated unchanged |
| SqlLogger.LoggingStmt.QueryContext | server/internal/db/sqlitelogger.go:133-142 | one "query" record, then the context call is delegated, or a plain Query with the bare values when the statement lacks it |
| SqlLogger.LoggingConn.constructor | server/internal/db/sqlitelogger.go:54 | a connection keeps its connector's logger |
| SqlLogger.LoggingConn.Prepare | server/internal/db/sqlitelogger.go:66-84 | a failed prepare returns its error and no statement; otherwise a new statement with the query and the connection's logger |
| SqlLogger.Connector.constructor | server/internal/db/sqlitelogger.go:39 | a connector keeps its DSN and logger |
| SqlLogger.Connector.Connect | server/internal/db/sqlitelogger.go:48-55 | a failed open returns its error and no connection; otherwise a new connection with the connector's logger |
| SqlLogger.NewLoggingConnector | server/internal/db/sqlitelogger.go:35-40 | never fails, keeps the DSN and uses the default logger when none is given |
| SqlLogger.DriverOpen | server/internal/db/sqlitelogger.go:61-63 | opening through the driver always fails |
| Bme280I2c.WriteFrame | csensor/bme280_pico_i2c.c:109-112 | the frame is the register address followed by the data bytes, one longer than the data |
| Bme280I2c.Write | csensor/bme280_pico_i2c.c:90-120 | a NULL context or data gives E_NULL_PTR and a length over 20 gives E_INVALID_LEN, both without a bus transfer; otherwise exactly one non-holding write of the frame, success exactly when len+1 bytes went out and E_COMM_FAIL otherwise |
| Bme280I2c.Read | csensor/bme280_pico_i2c.c:55-75 | a NULL pointer gives E_NULL_PTR without a transfer; the register byte is written holding the bus and must transfer 1, else E_COMM_FAIL; then len bytes are read into the buffer, success exactly when len came back; the buffer is untouched on the early failures and beyond len, and the bus frequency is kept |
| Bme280I2c.Init | csensor/bme280_pico_i2c.c:149-165 | the context holds the I2C instance and address, and the bus runs at the given frequency |

## Left out

- Radio I/O: adapter enable, scan and stop-scan, the listener goroutines and the scan cancellation are outside the model; only the filter decision and the choice of `Run`'s return value are modelled.
- Concurrency: the dedup mutex, the MQTT clients' read-write locks and `stopOnce` are not modelled; each method call is one atomic step.
- GatewayMqtt.Client.Connect: the backoff and its `math.Sin` jitter are not modelled (floating point); the loop is driven by the observed rounds, and it is specified only for runs that end within them.
- GatewayMqtt: `monitorConnection`, the ticker goroutine that copies the broker's live flag into `connected`, is not modelled; `Client.IsConnected` takes the live flag as a parameter instead.
- GatewayMqtt.Client.Disconnect: requires a client that is not yet stopped, because a second call closes a closed channel and panics.
- ServerMqtt.Subscriber.Connect: paho's own auto-reconnect and the 200 ms token polling are abstracted as a sequence of polls, and the method is specified only for waits that end within them.
- Broker calls, token waits, publish timeouts and JSON encoding and decoding are parameters or recorded calls; the message bytes are not built.
- Floating point: the payload carries the float32 bit patterns; the float32-to-float64 widening in the gateway handler is the parameter `widen`; the validators compare reals, so NaN (which Go lets through the humidity check) is not modelled; `%f` formatting is the parameter `formatFloat`.
- Unit conversions and the firmware main loops (csensor/main.c, sensor/main.go, sensor/sensor.go, firmware/main.go, gateway/internal/sensor/sensor.go) are GPIO, I2C and timer polling and are not part of this model.
- CAdvertise.Advertiser.Init: the cyw43 and BTstack start-up calls (`cyw43_arch_init`, `l2cap_init`, `sm_init`, the handler registration, `hci_power_control`) are not modelled, so the contract covers only the statics it sets.
- CAdvertise.Advertiser.Deinit: `hci_power_control(HCI_POWER_OFF)` and `cyw43_arch_deinit` are not modelled; only the advertising flag and readiness are.
- Bme280I2c.Init: `gpio_set_function` and `gpio_pull_up` on the two pins are not modelled.
- Bme280I2c: `bme280_pico_delay_us` is a sleep and is not modelled.
- Bme280I2c.Write: the `(int)(len + 1)` cast is modelled on unbounded integers; it cannot overflow because lengths over 20 are rejected first.
- Bme280I2c.Read: the `(int)len` cast is modelled on unbounded integers, so a length above INT_MAX, where the C comparison wraps, is not modelled.
- Bme280I2c.Write and Bme280I2c.Read: require the data buffer to hold `len` bytes, which C cannot check and which the Bosch driver guarantees.
- HTML rendering, response writing and HTTP plumbing (views, server/internal/utils/utils.go, the mux, the health check, middleware) are not modelled; a handler's result is the data it would render or write.
- WeatherHandlers.HandleHistoryPartial: the readings of the page are not carried; the model records the offset at which they are fetched and whether that query succeeded.
- HttpApi: `HandleStations` and `HandleLatest` in server/pkg/httpapi/handlers.go are stubs and are not modelled; `HandleHealthz` is HTTP plumbing.
- HttpApi.GenerateReadings: the generated value 10.0 + 0.1·i is kept as a real, without float64 rounding.
- SQL: the embedded queries, `GetStations`, `GetLatestReadings`, `GetReadings` and `GetReadingsCount` are database calls; the repository is abstracted as the station table and the inserted rows.
- WeatherRepository.Repository.InsertReading: the timestamp text is the parameter `formatTime` (RFC 3339 with nanoseconds, UTC).
- Migrate.SortByVersion: an insertion sort by version stands for `sort.Slice`, which is not stable; the two agree whenever versions are distinct; for two files with the same version the model fixes their order, where Go's order is unspecified.
- Migrate.Migrator.Run: the "read migrations dir" error of `fs.ReadDir` has no case, because the directory is embedded with `//go:embed sql/*.sql` and so always exists; the entries are a parameter.
- Migrate.ApplyOne: a body that fails is not added to the executed list; the partial effects of a SQL script that fails part-way are not modelled.
- SqlLogger: `Begin`, `BeginTx`, `Close` and `Driver` only delegate to the wrapped connection and are not modelled; `logQuery`'s rendering through slog is recorded as the operation, SQL text and argument list.
- SqlLogger.FormatArg: `fmt.Sprint` of floats and times is the parameter `sprint`; integers, booleans, strings, bytes and nil are written out.
- Library parsing: RFC 3339 parsing and formatting, `time.ParseDuration`, `url.ParseQuery` and `Values.Encode`, `filepath.Abs`, `Dir` and `Clean`, `os.MkdirAll` and `time.Now` are parameters.
- ServerDb: server/internal/db/db.go reads `SQLiteDSN`, `SQLitePath`, `SQLiteDriver` and the `SQLite*` pool fields, which server/internal/config/config.go does not define; the model gives db.go its own `DbConfig` record instead of reconciling the two.
- ServerMqtt: server/internal/modules/weather/service/mqtt.go passes a message-based handler while server/internal/mqtt/mqtt.go expects a telemetry-based one; each file's own logic is modelled, and the subscriber's topic is a constructor parameter.
- Dedup: gateway/internal/ble/handler.go calls `PublishTelemetry` with one argument while the client takes two; the handler's publish is modelled as the telemetry handed over plus the publisher's answer.
- Orchestration and entry points (gateway/internal/app, server/internal/app, server/pkg/app, gateway/cmd, the logger set-up, `run` and `newLogger` in server/cmd/main.go) and the server/pkg weather stubs are not modelled.
