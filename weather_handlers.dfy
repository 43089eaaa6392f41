/** The history handlers of the weather controller, handleHistory and handleHistoryPartial in
    server/internal/modules/weather/controller/handlers.go: which station, range and page are
    shown, the paging arithmetic and the state cookie written back. The repository calls are
    parameters (None for a failed call), the cookie encoding is `encode`; rendering is not
    modelled. */
module WeatherHandlers {
  import opened Wrappers
  import opened GoText
  import opened ReadingsQuery
  import opened WeatherUtils
  import opened WeatherPagination

  datatype Station = Station(id: string, name: string)

  const StatusInternalServerError := 500
  const FailedStations := "failed to load stations"
  const FailedReadings := "failed to load readings"
  const UnknownStation := "Unknown Station"

  /** The first non-empty of a query value and a cookie value. */
  function QueryOrCookie(q: Values, key: string, fromCookie: string): (v: string)
    ensures Get(q, key) != "" ==> v == Get(q, key)
    ensures Get(q, key) == "" ==> v == fromCookie
  {
    if Get(q, key) != "" then Get(q, key) else fromCookie
  }

  /** handleHistory's choice: the station from the query, else the cookie, else the first
      station; the range from the query, else the cookie, else "24h". */
  function SelectHistory(q: Values, state: WeatherState, stations: seq<Station>): (r: (string, string))
    ensures Get(q, "station_id") != "" ==> r.0 == Get(q, "station_id")
    ensures Get(q, "station_id") == "" && state.stationId != "" ==> r.0 == state.stationId
    ensures Get(q, "station_id") == "" && state.stationId == "" ==> r.0 == (if |stations| > 0 then stations[0].id else "")
    ensures Get(q, "range") != "" ==> r.1 == Get(q, "range")
    ensures Get(q, "range") == "" && state.rangeKey != "" ==> r.1 == state.rangeKey
    ensures Get(q, "range") == "" && state.rangeKey == "" ==> r.1 == DefaultRangeKey
  {
    var station := QueryOrCookie(q, "station_id", state.stationId);
    var rangeKey := QueryOrCookie(q, "range", state.rangeKey);
    (if station == "" && |stations| > 0 then stations[0].id else station,
     if rangeKey == "" then DefaultRangeKey else rangeKey)
  }

  /** What the history page shows and the cookie it sets. */
  datatype HistoryParams = HistoryParams(stations: seq<Station>, selectedStationId: string, selectedRangeKey: string)

  datatype HistoryPage = HistoryFailed(status: int, message: string) | HistoryShown(params: HistoryParams, cookie: Cookie)

  /** handleHistory: the page keeps the cookie's page number; the cookie normalises the range. */
  function HandleHistory(stations: Option<seq<Station>>, q: Values, state: WeatherState, encode: Values -> string): (r: HistoryPage)
    ensures stations.None? <==> r == HistoryFailed(StatusInternalServerError, FailedStations)
    ensures r.HistoryShown? ==> var sel := SelectHistory(q, state, stations.value);
      && r.params == HistoryParams(stations.value, sel.0, sel.1)
      && r.cookie == WriteWeatherStateCookie(sel.0, sel.1, state.page, encode)
  {
    match stations
    case None => HistoryFailed(StatusInternalServerError, FailedStations)
    case Some(ss) =>
      var sel := SelectHistory(q, state, ss);
      HistoryShown(HistoryParams(ss, sel.0, sel.1), WriteWeatherStateCookie(sel.0, sel.1, state.page, encode))
  }

  /** The range of the partial: the query's, else the cookie's, and "24h" when that is empty or
      unknown. */
  function PartialRange(q: Values, state: WeatherState): (r: (string, HistoryRange))
    ensures r.0 in HistoryRanges && r.1 == HistoryRanges[r.0]
    ensures QueryOrCookie(q, "range", state.rangeKey) in HistoryRanges ==> r.0 == QueryOrCookie(q, "range", state.rangeKey)
    ensures QueryOrCookie(q, "range", state.rangeKey) !in HistoryRanges ==> r.0 == DefaultRangeKey
  {
    var rangeKey := QueryOrCookie(q, "range", state.rangeKey);
    var resolved := ResolveHistoryRange(rangeKey);
    if rangeKey == "" || !resolved.1 then (DefaultRangeKey, ResolveHistoryRange(DefaultRangeKey).0)
    else (rangeKey, resolved.0)
  }

  /** The requested page before clamping: with a "page" query parameter, that parameter; without
      one, 1 when station or range differ from the cookie, else the cookie's page when it is at
      least 1. */
  function RequestedPage(q: Values, state: WeatherState, station: string, rangeKey: string): (p: int)
    ensures p >= 1
    ensures Get(q, "page") != "" ==> p == ParseHistoryPage(q)
    ensures Get(q, "page") == "" && (station != state.stationId || rangeKey != state.rangeKey) ==> p == 1
    ensures Get(q, "page") == "" && station == state.stationId && rangeKey == state.rangeKey && state.page >= 1
      ==> p == state.page
  {
    var page := ParseHistoryPage(q);
    if Get(q, "page") == "" then
      if station != state.stationId || rangeKey != state.rangeKey then 1
      else if state.page >= 1 then state.page
      else page
    else page
  }

  /** The name of the first station with the given id, "" when there is none. */
  function NameOf(stations: seq<Station>, id: string): (name: string)
    ensures name != "" ==> exists i :: 0 <= i < |stations| && stations[i].id == id && stations[i].name == name
    ensures (forall i :: 0 <= i < |stations| ==> stations[i].id != id) ==> name == ""
    ensures stations != [] && stations[0].id == id ==> name == stations[0].name
  {
    if stations == [] then ""
    else if stations[0].id == id then stations[0].name
    else NameOf(stations[1..], id)
  }

  /** The station shown: the first station when none was requested (None without stations),
      otherwise the requested id with its name, or "Unknown Station". */
  function ShownStation(stations: seq<Station>, requested: string): (r: Option<Station>)
    ensures r.None? <==> requested == "" && stations == []
    ensures requested == "" && stations != [] ==> r == Some(stations[0])
    ensures requested != "" ==> r.value.id == requested
    ensures requested != "" && NameOf(stations, requested) != "" ==> r.value.name == NameOf(stations, requested)
    ensures requested != "" && NameOf(stations, requested) == "" ==> r.value.name == UnknownStation
  {
    if requested == "" then
      if stations == [] then None else Some(stations[0])
    else
      var name := NameOf(stations, requested);
      Some(Station(requested, if name == "" then UnknownStation else name))
  }

  /** totalPages: ceil(count / 20), and 1 when there are no readings. */
  function TotalPages(count: int): (t: int)
    ensures t >= 1
    ensures count <= 0 ==> t == 1
    ensures count > 0 ==> (t - 1) * PageSize < count <= t * PageSize
  {
    if count > 0 then (count + PageSize - 1) / PageSize else 1
  }

  /** A page outside [1, totalPages] becomes 1. */
  function ClampPage(page: int, totalPages: int): (p: int)
    requires totalPages >= 1
    ensures 1 <= p <= totalPages
    ensures 1 <= page <= totalPages ==> p == page
    ensures !(1 <= page <= totalPages) ==> p == 1
  {
    if page < 1 || page > totalPages then 1 else page
  }

  function Offset(page: int): int {
    (page - 1) * PageSize
  }

  /** The offset of the shown page always lies within the readings: a page is never past the
      end unless there are no readings at all. */
  lemma OffsetWithinCount(count: int, page: int)
    ensures var p := ClampPage(page, TotalPages(count));
      0 <= Offset(p) && (count > 0 ==> Offset(p) < count) && (count <= 0 ==> Offset(p) == 0)
  {
    var t := TotalPages(count);
    var p := ClampPage(page, t);
    assert (p - 1) * PageSize <= (t - 1) * PageSize;
  }

  /** views.HistoryData without the readings themselves. */
  datatype HistoryData = HistoryData(
    stationName: string, stationId: string, rangeLabel: string, rangeKey: string,
    currentPage: int, totalPages: int, hasPrev: bool, hasNext: bool, prevPage: int, nextPage: int,
    pageItems: seq<PaginationItem>)

  /** The outcome of handleHistoryPartial: an error, or the data rendered together with the
      offset of the readings fetched (None when nothing is fetched) and the cookie set (None when
      none is). */
  datatype Partial =
    | PartialFailed(status: int, message: string)
    | PartialShown(data: HistoryData, offset: Option<int>, cookie: Option<Cookie>)

  /** The data for a known station and reading count. */
  function PagedData(station: Station, rangeKey: string, info: HistoryRange, count: int, requested: int): (d: HistoryData)
    ensures d.totalPages == TotalPages(count)
    ensures d.currentPage == ClampPage(requested, d.totalPages)
    ensures d.hasPrev <==> d.currentPage > 1
    ensures d.hasNext <==> d.currentPage < d.totalPages
    ensures d.prevPage == d.currentPage - 1 && d.nextPage == d.currentPage + 1
    ensures d.pageItems == PageItems(d.totalPages, d.currentPage)
    ensures d.stationId == station.id && d.stationName == station.name
    ensures d.rangeKey == rangeKey && d.rangeLabel == info.rangeLabel
  {
    var total := TotalPages(count);
    var page := ClampPage(requested, total);
    HistoryData(station.name, station.id, info.rangeLabel, rangeKey, page, total, page > 1, page < total,
      page - 1, page + 1, PageItems(total, page))
  }

  /** handleHistoryPartial. `countOf(station, duration)` and `readingsOk(station, duration,
      offset)` stand for the repository's count and page queries. */
  function HandleHistoryPartial(stations: Option<seq<Station>>, q: Values, state: WeatherState,
                                countOf: (string, int) -> Option<int>,
                                readingsOk: (string, int, int) -> bool,
                                encode: Values -> string): (r: Partial)
    ensures stations.None? ==> r == PartialFailed(StatusInternalServerError, FailedStations)
    ensures stations == Some([]) && QueryOrCookie(q, "station_id", state.stationId) == "" ==>
      && r.PartialShown? && r.offset.None? && r.cookie.None?
      && r.data.currentPage == 1 && r.data.totalPages == 1 && r.data.pageItems == [PageItem(1)]
  {
    match stations
    case None => PartialFailed(StatusInternalServerError, FailedStations)
    case Some(ss) =>
      var (rangeKey, info) := PartialRange(q, state);
      var requested := QueryOrCookie(q, "station_id", state.stationId);
      var page := RequestedPage(q, state, requested, rangeKey);
      match ShownStation(ss, requested)
      case None =>
        PartialShown(HistoryData("", "", info.rangeLabel, rangeKey, 1, 1, false, false, 1, 2, [PageItem(1)]), None, None)
      case Some(station) =>
        match countOf(station.id, info.duration)
        case None => PartialFailed(StatusInternalServerError, FailedReadings)
        case Some(count) =>
          var data := PagedData(station, rangeKey, info, count, page);
          if !readingsOk(station.id, info.duration, Offset(data.currentPage)) then
            PartialFailed(StatusInternalServerError, FailedReadings)
          else
            PartialShown(data, Some(Offset(data.currentPage)),
              Some(WriteWeatherStateCookie(station.id, rangeKey, data.currentPage, encode)))
  }

  /** A rendered partial with readings: the page lies in [1, totalPages], the offset is that
      page's first reading and lies within the count, the bar is the one for that page, and the
      cookie records the station, range and page shown. */
  lemma PartialShownFacts(stations: Option<seq<Station>>, q: Values, state: WeatherState,
                          countOf: (string, int) -> Option<int>, readingsOk: (string, int, int) -> bool,
                          encode: Values -> string)
    requires HandleHistoryPartial(stations, q, state, countOf, readingsOk, encode).PartialShown?
    requires HandleHistoryPartial(stations, q, state, countOf, readingsOk, encode).offset.Some?
    ensures var r := HandleHistoryPartial(stations, q, state, countOf, readingsOk, encode);
      var d := r.data;
      && 1 <= d.currentPage <= d.totalPages
      && r.offset == Some((d.currentPage - 1) * PageSize)
      && countOf(d.stationId, HistoryRanges[d.rangeKey].duration).Some?
      && var count := countOf(d.stationId, HistoryRanges[d.rangeKey].duration).value;
      && (count > 0 ==> r.offset.value < count)
      && d.totalPages == TotalPages(count)
      && d.pageItems == PageItems(d.totalPages, d.currentPage)
      && d.rangeKey in HistoryRanges
      && r.cookie == Some(WriteWeatherStateCookie(d.stationId, d.rangeKey, d.currentPage, encode))
  {
    var (rangeKey, info) := PartialRange(q, state);
    var requested := QueryOrCookie(q, "station_id", state.stationId);
    var page := RequestedPage(q, state, requested, rangeKey);
    var station := ShownStation(stations.value, requested).value;
    var count := countOf(station.id, info.duration).value;
    OffsetWithinCount(count, page);
  }

  /** Without a "page" parameter, moving to another station or range starts again at page 1. */
  lemma ChangeResetsPage(stations: Option<seq<Station>>, q: Values, state: WeatherState,
                         countOf: (string, int) -> Option<int>, readingsOk: (string, int, int) -> bool,
                         encode: Values -> string)
    requires Get(q, "page") == ""
    requires QueryOrCookie(q, "station_id", state.stationId) != state.stationId
          || PartialRange(q, state).0 != state.rangeKey
    requires HandleHistoryPartial(stations, q, state, countOf, readingsOk, encode).PartialShown?
    ensures HandleHistoryPartial(stations, q, state, countOf, readingsOk, encode).data.currentPage == 1
  {
  }

  /** Without a "page" parameter and with the same station and range, the cookie's page is kept
      when it still exists. */
  lemma SameViewKeepsPage(stations: Option<seq<Station>>, q: Values, state: WeatherState,
                          countOf: (string, int) -> Option<int>, readingsOk: (string, int, int) -> bool,
                          encode: Values -> string)
    requires Get(q, "page") == ""
    requires QueryOrCookie(q, "station_id", state.stationId) == state.stationId
    requires PartialRange(q, state).0 == state.rangeKey
    requires var r := HandleHistoryPartial(stations, q, state, countOf, readingsOk, encode);
      r.PartialShown? && 1 <= state.page <= r.data.totalPages
    ensures HandleHistoryPartial(stations, q, state, countOf, readingsOk, encode).data.currentPage == state.page
  {
  }
}
