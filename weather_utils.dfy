/** The request and cookie helpers of the weather controller
    (server/internal/modules/weather/controller/utils.go). url.ParseQuery and url.Values.Encode
    are the parameters `parseQuery` and `encode`. */
module WeatherUtils {
  import opened Wrappers
  import opened GoText
  import opened ReadingsQuery

  const CookieName := "weather_state"
  /** One year, in seconds. */
  const CookieMaxAge := 365 * 24 * 60 * 60

  const DefaultRangeKey := "24h"
  const PageSize := 20

  const Hour := 3_600_000_000_000

  /** A history range: its length in nanoseconds and its label (Label). */
  datatype HistoryRange = HistoryRange(duration: int, rangeLabel: string)

  const HistoryRanges: map<string, HistoryRange> := map[
    "1h" := HistoryRange(Hour, "Last 1 hour"),
    "6h" := HistoryRange(6 * Hour, "Last 6 hours"),
    "24h" := HistoryRange(24 * Hour, "Last 24 hours"),
    "7d" := HistoryRange(7 * 24 * Hour, "Last 7 days")]

  /** resolveHistoryRange: "" and the known keys are accepted; an unknown key falls back to the
      24-hour range and reports false. */
  function ResolveHistoryRange(key: string): (r: (HistoryRange, bool))
    ensures r.1 <==> key == "" || key in HistoryRanges
    ensures key in HistoryRanges ==> r.0 == HistoryRanges[key]
    ensures key !in HistoryRanges ==> r.0 == HistoryRanges[DefaultRangeKey]
  {
    if key == "" then (HistoryRanges[DefaultRangeKey], true)
    else if key in HistoryRanges then (HistoryRanges[key], true)
    else (HistoryRanges[DefaultRangeKey], false)
  }

  /** A page number as text: anything that is not an integer of at least 1 reads as page 1. */
  function PageOf(s: string): (p: int)
    ensures p >= 1
    ensures p != 1 ==> Atoi(s) == Some(p)
    ensures Atoi(s).Some? && Atoi(s).value >= 1 ==> p == Atoi(s).value
  {
    if s == "" then 1
    else match Atoi(s)
      case Some(n) => if n < 1 then 1 else n
      case None => 1
  }

  /** parseHistoryPage: the "page" query parameter read by PageOf. */
  function ParseHistoryPage(q: Values): (p: int)
    ensures p >= 1
    ensures p != 1 ==> Atoi(Get(q, "page")) == Some(p)
  {
    PageOf(Get(q, "page"))
  }

  /** The persisted history state; the zero value means "no cookie". */
  datatype WeatherState = WeatherState(stationId: string, rangeKey: string, page: int)

  const ZeroState := WeatherState("", "", 0)

  /** readWeatherStateCookie: a missing or unparsable cookie gives the zero state; otherwise an
      unknown range is dropped and the page defaults to 1. */
  function ReadWeatherStateCookie(cookie: Option<string>, parseQuery: string -> Option<Values>): (s: WeatherState)
    ensures cookie.None? ==> s == ZeroState
    ensures cookie.Some? && parseQuery(cookie.value).None? ==> s == ZeroState
    ensures s != ZeroState ==> s.rangeKey == "" || s.rangeKey in HistoryRanges
    ensures s != ZeroState ==> s.page >= 1
  {
    match cookie
    case None => ZeroState
    case Some(value) =>
      match parseQuery(value)
      case None => ZeroState
      case Some(vals) =>
        var rangeKey := Get(vals, "range");
        WeatherState(Get(vals, "station_id"), if rangeKey in HistoryRanges then rangeKey else "", PageOf(Get(vals, "page")))
  }

  /** The range key written to the cookie: an unknown key is replaced by the default. */
  function NormalRange(key: string): (k: string)
    ensures k in HistoryRanges
    ensures key in HistoryRanges ==> k == key
  {
    if key in HistoryRanges then key else DefaultRangeKey
  }

  /** The values writeWeatherStateCookie encodes: station as given, range normalised, and the page
      raised to at least 1. */
  function StateValues(stationId: string, rangeKey: string, page: int): Values {
    map["station_id" := stationId, "range" := NormalRange(rangeKey), "page" := Itoa(if page < 1 then 1 else page)]
  }

  datatype SameSite = SameSiteLax

  datatype Cookie = Cookie(
    name: string, value: string, path: string, maxAge: int, httpOnly: bool, sameSite: SameSite, secure: bool)

  /** writeWeatherStateCookie: the cookie it sets. */
  function WriteWeatherStateCookie(stationId: string, rangeKey: string, page: int, encode: Values -> string): (c: Cookie)
    ensures c.name == CookieName && c.path == "/" && c.maxAge == 31_536_000
    ensures c.httpOnly && c.sameSite == SameSiteLax && !c.secure
    ensures c.value == encode(StateValues(stationId, rangeKey, page))
  {
    Cookie(CookieName, encode(StateValues(stationId, rangeKey, page)), "/", CookieMaxAge, true, SameSiteLax, false)
  }

  /** Reading back a written cookie gives the station, the normalised range and max(page, 1),
      provided the query encoding round-trips. */
  lemma CookieRoundTrip(stationId: string, rangeKey: string, page: int,
                        encode: Values -> string, parseQuery: string -> Option<Values>)
    requires page <= MaxInt64
    requires var v := StateValues(stationId, rangeKey, page); parseQuery(encode(v)) == Some(v)
    ensures var c := WriteWeatherStateCookie(stationId, rangeKey, page, encode);
      ReadWeatherStateCookie(Some(c.value), parseQuery)
        == WeatherState(stationId, NormalRange(rangeKey), if page < 1 then 1 else page)
  {
    var p := if page < 1 then 1 else page;
    AtoiItoa(p);
    assert Itoa(p) != "";
  }
}
