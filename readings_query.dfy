/** The readings-query rules written out twice in the server, in
    server/internal/modules/weather/controller/utils.go and server/pkg/httpapi/handlers.go:
    optional RFC 3339 bounds and a limit between 1 and 1000. The query string is the decoded
    url.Values, with Get giving "" for a missing key; time.Parse(time.RFC3339, ...) is the
    parameter `parseTime`. */
module ReadingsQuery {
  import opened Wrappers
  import opened GoText
  import opened Telemetry

  /** url.Values reduced to the first value of each key. */
  type Values = map<string, string>

  function Get(q: Values, key: string): string {
    if key in q then q[key] else ""
  }

  const DefaultLimit := 100
  const MaxLimit := 1000

  const InvalidFrom := "invalid 'from' (expected RFC3339)"
  const InvalidTo := "invalid 'to' (expected RFC3339)"
  const FromAfterTo := "'from' must be <= 'to'"
  const InvalidLimit := "invalid 'limit' (expected integer)"
  const LimitNotPositive := "'limit' must be > 0"
  const LimitTooLarge := "'limit' must be <= 1000"

  /** The limit rule: 100 when absent; otherwise an integer in [1, 1000], with one message per
      way of failing. */
  function ParseLimit(s: string): (r: (int, Option<string>))
    ensures r.1.Some? ==> r.0 == 0
    ensures s == "" ==> r == (DefaultLimit, None)
    ensures s != "" && Atoi(s).None? ==> r.1 == Some(InvalidLimit)
    ensures s != "" && Atoi(s).Some? && Atoi(s).value <= 0 ==> r.1 == Some(LimitNotPositive)
    ensures s != "" && Atoi(s).Some? && Atoi(s).value > MaxLimit ==> r.1 == Some(LimitTooLarge)
    ensures r.1.None? <==> s == "" || (Atoi(s).Some? && 1 <= Atoi(s).value <= MaxLimit)
    ensures r.1.None? && s != "" ==> r.0 == Atoi(s).value
    ensures r.1.None? ==> 1 <= r.0 <= MaxLimit
  {
    if s == "" then (DefaultLimit, None)
    else match Atoi(s)
      case None => (0, Some(InvalidLimit))
      case Some(n) =>
        if n <= 0 then (0, Some(LimitNotPositive))
        else if n > MaxLimit then (0, Some(LimitTooLarge))
        else (n, None)
  }

  /** parseLatestQuery in the weather controller: the limit rule alone. */
  function ParseLatestQuery(q: Values): (r: (int, Option<string>))
    ensures r == ParseLimit(Get(q, "limit"))
  {
    ParseLimit(Get(q, "limit"))
  }

  /** The result of parseReadingsQuery: bounds left at the zero time when not given. */
  datatype Window = Window(from: Instant, to: Instant, limit: int)

  const ZeroWindow := Window(ZeroTime, ZeroTime, 0)

  /** One optional bound: "" leaves the zero time; otherwise it must parse. */
  function ParseBound(s: string, parseTime: string -> Option<Instant>): Option<Instant> {
    if s == "" then Some(ZeroTime) else parseTime(s)
  }

  /** "from after to" is an error only when both bounds are set; equal bounds are accepted. */
  predicate Inverted(from: Instant, to: Instant) {
    !IsZero(from) && !IsZero(to) && from > to
  }

  /** parseReadingsQuery: from, then to, then their order, then the limit; every error returns
      the zero window. */
  function ParseReadingsQuery(q: Values, parseTime: string -> Option<Instant>): (r: (Window, Option<string>))
    ensures r.1.Some? ==> r.0 == ZeroWindow
    ensures r.1.None? ==> ParseBound(Get(q, "from"), parseTime) == Some(r.0.from)
    ensures r.1.None? ==> ParseBound(Get(q, "to"), parseTime) == Some(r.0.to)
    ensures r.1.None? ==> !Inverted(r.0.from, r.0.to)
    ensures r.1.None? ==> ParseLimit(Get(q, "limit")) == (r.0.limit, None)
  {
    match ParseBound(Get(q, "from"), parseTime)
    case None => (ZeroWindow, Some(InvalidFrom))
    case Some(from) =>
      match ParseBound(Get(q, "to"), parseTime)
      case None => (ZeroWindow, Some(InvalidTo))
      case Some(to) =>
        if Inverted(from, to) then (ZeroWindow, Some(FromAfterTo))
        else
          var limit := ParseLimit(Get(q, "limit"));
          if limit.1.Some? then (ZeroWindow, limit.1)
          else (Window(from, to, limit.0), None)
  }

  /** The checks run in order: a bad 'from' wins over everything, a bad 'to' over the order and
      the limit, the order over the limit; the query is accepted exactly when all four pass. */
  lemma CheckOrder(q: Values, parseTime: string -> Option<Instant>)
    ensures var from := ParseBound(Get(q, "from"), parseTime);
      var to := ParseBound(Get(q, "to"), parseTime);
      var r := ParseReadingsQuery(q, parseTime);
      && (from.None? ==> r.1 == Some(InvalidFrom))
      && (from.Some? && to.None? ==> r.1 == Some(InvalidTo))
      && (from.Some? && to.Some? && Inverted(from.value, to.value) ==> r.1 == Some(FromAfterTo))
      && (from.Some? && to.Some? && !Inverted(from.value, to.value) ==> r.1 == ParseLimit(Get(q, "limit")).1)
  {
  }

  /** The error messages are pairwise distinct, so a caller can tell every failure apart. */
  lemma MessagesDistinct()
    ensures |{InvalidFrom, InvalidTo, FromAfterTo, InvalidLimit, LimitNotPositive, LimitTooLarge}| == 6
  {
    assert InvalidFrom[9] == 'f' && InvalidTo[9] == 't';
    assert FromAfterTo[0] == '\'' && LimitNotPositive[0] == '\'' && LimitTooLarge[0] == '\'';
    assert FromAfterTo[1] == 'f' && LimitNotPositive[1] == 'l';
    assert LimitNotPositive[16] == '>' && LimitTooLarge[16] == '<';
    assert InvalidLimit[9] == 'l';
  }

  /** An empty query is accepted with no bounds and the default limit of 100. */
  lemma EmptyQuery(parseTime: string -> Option<Instant>)
    ensures ParseReadingsQuery(map[], parseTime) == (Window(ZeroTime, ZeroTime, DefaultLimit), None)
  {
  }

  /** Equal bounds are accepted. */
  lemma EqualBoundsAccepted(q: Values, parseTime: string -> Option<Instant>, t: Instant)
    requires ParseBound(Get(q, "from"), parseTime) == Some(t) && ParseBound(Get(q, "to"), parseTime) == Some(t)
    requires ParseLimit(Get(q, "limit")).1.None?
    ensures ParseReadingsQuery(q, parseTime) == (Window(t, t, ParseLimit(Get(q, "limit")).0), None)
  {
  }

  /** zeroAsNullTime: the zero time becomes null, every other instant is kept. */
  function ZeroAsNull(t: Instant): (r: Option<Instant>)
    ensures r.None? <==> IsZero(t)
    ensures r.Some? ==> r.value == t
  {
    if IsZero(t) then None else Some(t)
  }

  /** Reading a null back as the zero time recovers the instant. */
  lemma ZeroAsNullInverse(t: Instant)
    ensures ZeroAsNull(t).GetOr(ZeroTime) == t
  {
  }
}
