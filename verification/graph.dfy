/** Normalisation of Graph API responses (lib/facebookGraph.ts): the error type and the error
    message choice, the metric list per media type, the reduction of media insights to a
    partial map, the account-insights time window and the 7/28-day roll-up. */
module Graph {
  import opened Wrappers
  import opened Text

  // ---------------------------------------------------------------------------
  // Errors
  // ---------------------------------------------------------------------------

  datatype ErrorDetail = ErrorDetail(
    message: Option<string>,
    errorType: Option<string>,
    code: Option<int>,
    errorSubcode: Option<int>,
    fbtraceId: Option<string>)

  /** The parsed JSON body of a failed Graph call. */
  datatype ErrorPayload = ErrorPayload(error: Option<ErrorDetail>)

  datatype ErrorOptions = ErrorOptions(status: Option<int>, responseBody: Option<string>, payload: Option<ErrorPayload>)

  /** `FacebookGraphError`: an `Error` carrying the HTTP status, the raw body and the parsed payload. */
  datatype GraphError = GraphError(
    name: string,
    message: string,
    status: int,
    responseBody: Option<string>,
    payload: Option<ErrorPayload>)

  const DEFAULT_ERROR_STATUS: int := 500

  /** The `FacebookGraphError` constructor: the status defaults to 500 when none is supplied. */
  function NewGraphError(message: string, options: Option<ErrorOptions>): (e: GraphError)
    ensures e.name == "FacebookGraphError" && e.message == message
    ensures (options.None? || options.value.status.None?) ==> e.status == 500
    ensures options.Some? && options.value.status.Some? ==> e.status == options.value.status.value
    ensures options.None? ==> e.responseBody.None? && e.payload.None?
    ensures options.Some? ==> e.responseBody == options.value.responseBody && e.payload == options.value.payload
  {
    match options
    case None => GraphError("FacebookGraphError", message, DEFAULT_ERROR_STATUS, None, None)
    case Some(o) => GraphError("FacebookGraphError", message, o.status.GetOr(DEFAULT_ERROR_STATUS), o.responseBody, o.payload)
  }

  /** `payload?.error?.message`, when trimming leaves something. */
  function UsableMessage(payload: Option<ErrorPayload>): Option<string> {
    if payload.Some? && payload.value.error.Some? && payload.value.error.value.message.Some?
       && |Trim(payload.value.error.value.message.value)| != 0
    then payload.value.error.value.message
    else None
  }

  /** `handleGraphError`: builds the error it throws (it never returns normally). `parseJson` is
      `JSON.parse`, `None` when the body is not JSON. */
  function HandleGraphError(status: int, text: string, parseJson: string -> Option<ErrorPayload>,
                            fallbackMessage: string): (e: GraphError)
    ensures e.status == status && e.responseBody == Some(text) && e.payload == parseJson(text)
    ensures var p := parseJson(text);
      if p.Some? && p.value.error.Some? && p.value.error.value.message.Some?
         && !AllWhitespace(p.value.error.value.message.value)
      then e.message == p.value.error.value.message.value
      else e.message == fallbackMessage
  {
    var payload := parseJson(text);
    var message := match UsableMessage(payload) case Some(m) => m case None => fallbackMessage;
    NewGraphError(message, Some(ErrorOptions(Some(status), Some(text), payload)))
  }

  /** The reply to one Graph request: the parsed JSON of a 2xx reply, or the status and body text of another. */
  datatype Reply<T> = Success(json: T) | Failure(status: int, text: string)

  // ---------------------------------------------------------------------------
  // Media insights
  // ---------------------------------------------------------------------------

  const IMAGE_METRICS: seq<string> :=
    ["reach", "saved", "likes", "comments", "shares", "total_interactions", "profile_visits", "profile_activity"]

  /** `metricsForMediaType`: the metrics requested for each media type; IMAGE, any other type and
      no type at all share one list. */
  function MetricsForMediaType(mediaType: Option<string>): (metrics: seq<string>)
    ensures "reach" in metrics && "total_interactions" in metrics
    ensures mediaType.None? || mediaType.value !in KNOWN_MEDIA_TYPES ==> metrics == IMAGE_METRICS
  {
    match mediaType
    case Some("VIDEO") => ["reach", "saved", "views", "likes", "comments", "shares", "total_interactions"]
    case Some("REELS") =>
      ["reach", "saved", "views", "likes", "comments", "shares", "total_interactions", "follows",
       "ig_reels_avg_watch_time", "ig_reels_video_view_total_time"]
    case Some("STORY") => ["reach", "views", "follows", "profile_visits", "shares", "total_interactions"]
    case Some("CAROUSEL_ALBUM") =>
      ["reach", "saved", "likes", "comments", "shares", "total_interactions", "profile_visits", "profile_activity"]
    case _ => IMAGE_METRICS
  }

  const KNOWN_MEDIA_TYPES: set<string> := {"VIDEO", "REELS", "STORY", "CAROUSEL_ALBUM", "IMAGE"}

  /** Unknown media types, and a missing one, get the IMAGE metrics. */
  lemma UnknownMediaTypeIsImage(mediaType: Option<string>)
    requires mediaType.None? || mediaType.value !in KNOWN_MEDIA_TYPES
    ensures MetricsForMediaType(mediaType) == MetricsForMediaType(Some("IMAGE"))
  {
  }

  /** Every list asks for reach and total interactions; the VIDEO list asks for no profile metric. */
  lemma MetricListsCoverReachAndInteractions(mediaType: Option<string>)
    ensures "reach" in MetricsForMediaType(mediaType)
    ensures "total_interactions" in MetricsForMediaType(mediaType)
    ensures mediaType == Some("VIDEO") ==>
      "profile_visits" !in MetricsForMediaType(mediaType) && "profile_activity" !in MetricsForMediaType(mediaType)
      && "follows" !in MetricsForMediaType(mediaType)
  {
    var ms := MetricsForMediaType(mediaType);
    if mediaType == Some("VIDEO") {
      assert ms == ["reach", "saved", "views", "likes", "comments", "shares", "total_interactions"];
      assert forall i :: 0 <= i < |ms| ==> ms[i] != "profile_visits" && ms[i] != "profile_activity" && ms[i] != "follows";
    }
  }

  /** One entry of a media-insights reply: its name and the `value` of each of its `values`
      (`None` for a `null` or non-numeric value). */
  datatype InsightItem = InsightItem(name: string, values: Option<seq<Option<int>>>)

  /** `item.values?.[0]?.value ?? null`, kept only when it is a number. */
  function FirstNumber(item: InsightItem): Option<int> {
    if item.values.Some? && |item.values.value| > 0 then item.values.value[0] else None
  }

  /** The reduce in `fetchMediaInsights`, as a left fold: a later entry overwrites an earlier one. */
  function MediaInsightsOf(items: seq<InsightItem>): map<string, int>
    decreases |items|
  {
    if items == [] then map[]
    else
      var acc := MediaInsightsOf(items[..|items| - 1]);
      var last := items[|items| - 1];
      match FirstNumber(last)
      case Some(v) => acc[last.name := v]
      case None => acc
  }

  /** The reduce itself: one pass updating the accumulator in place. */
  method ReduceMediaInsights(items: seq<InsightItem>) returns (acc: map<string, int>)
    ensures acc == MediaInsightsOf(items)
  {
    acc := map[];
    var i := 0;
    while i < |items|
      invariant 0 <= i <= |items|
      invariant acc == MediaInsightsOf(items[..i])
    {
      var value := FirstNumber(items[i]);
      if value.Some? {
        acc := acc[items[i].name := value.value];
      }
      assert items[..i + 1][..i] == items[..i];
      i := i + 1;
    }
    assert items[..i] == items;
  }

  /** A name is a key exactly when some entry of that name has a numeric first value, and it maps to
      the value of the last such entry. */
  lemma {:induction false} MediaInsightsEntry(items: seq<InsightItem>, name: string)
    ensures name in MediaInsightsOf(items) <==>
      exists i :: 0 <= i < |items| && items[i].name == name && FirstNumber(items[i]).Some?
    ensures name in MediaInsightsOf(items) ==>
      exists i :: 0 <= i < |items| && items[i].name == name && FirstNumber(items[i]) == Some(MediaInsightsOf(items)[name])
        && forall j :: i < j < |items| ==> items[j].name != name || FirstNumber(items[j]).None?
    decreases |items|
  {
    if items != [] {
      var init := items[..|items| - 1];
      var last := items[|items| - 1];
      MediaInsightsEntry(init, name);
      assert forall i :: 0 <= i < |init| ==> init[i] == items[i];
      if last.name == name && FirstNumber(last).Some? {
        assert MediaInsightsOf(items)[name] == FirstNumber(last).value;
      } else if name in MediaInsightsOf(items) {
        var i :| 0 <= i < |init| && init[i].name == name && FirstNumber(init[i]) == Some(MediaInsightsOf(init)[name])
          && forall j :: i < j < |init| ==> init[j].name != name || FirstNumber(init[j]).None?;
        assert items[i] == init[i];
      }
    }
  }

  /** `fetchMediaInsights` after the request: the metrics it asks for, and the insights map or the
      error it throws. */
  method FetchMediaInsights(mediaType: Option<string>, reply: Reply<seq<InsightItem>>,
                            parseJson: string -> Option<ErrorPayload>)
    returns (metrics: seq<string>, result: Result<map<string, int>, GraphError>)
    ensures metrics == MetricsForMediaType(mediaType)
    ensures reply.Failure? ==>
      result == Err(HandleGraphError(reply.status, reply.text, parseJson, "Failed to fetch media insights"))
    ensures reply.Success? ==> result == Ok(MediaInsightsOf(reply.json))
  {
    metrics := MetricsForMediaType(mediaType);
    if reply.Failure? {
      result := Err(HandleGraphError(reply.status, reply.text, parseJson, "Failed to fetch media insights"));
      return;
    }
    var insights := ReduceMediaInsights(reply.json);
    result := Ok(insights);
  }

  // ---------------------------------------------------------------------------
  // Account insights
  // ---------------------------------------------------------------------------

  const DAY_SECONDS: int := 24 * 60 * 60
  /** The widest window the Graph API accepts: thirty days less a minute. */
  const MAX_RANGE: int := 30 * DAY_SECONDS - 60

  /** The `since`/`until` pair, in whole seconds, of the account-insights request. */
  datatype Window = Window(since: int, until: int)

  /** `periodDays` when it is a finite number, else 28. */
  function RequestedDays(periodDays: Option<int>): int {
    periodDays.GetOr(28)
  }

  function ClampedRange(requestedDays: int): (range: int)
    ensures DAY_SECONDS <= range <= MAX_RANGE
    ensures requestedDays < 1 ==> range == DAY_SECONDS
    ensures 1 <= requestedDays <= 29 ==> range == requestedDays * DAY_SECONDS
    ensures requestedDays >= 30 ==> range == MAX_RANGE
  {
    var days := if requestedDays < 1 then 1 else requestedDays;
    var wanted := days * DAY_SECONDS;
    if wanted < MAX_RANGE then wanted else MAX_RANGE
  }

  /** Without a period the window spans four weeks; a period is used as given. */
  lemma DefaultPeriodIsFourWeeks(periodDays: Option<int>)
    ensures ClampedRange(RequestedDays(None)) == 28 * DAY_SECONDS
    ensures periodDays.Some? ==> ClampedRange(RequestedDays(periodDays)) == ClampedRange(periodDays.value)
  {
  }

  /** The window ends now (in seconds) and reaches back the clamped range, but never before 0. */
  function AccountWindow(periodDays: Option<int>, nowMillis: nat): (w: Window)
    ensures w.until == nowMillis / 1000
    ensures 0 <= w.since <= w.until
    ensures w.until - w.since <= MAX_RANGE
    ensures w.until >= ClampedRange(RequestedDays(periodDays)) ==>
      DAY_SECONDS <= w.until - w.since && w.until - w.since == ClampedRange(RequestedDays(periodDays))
    ensures w.until < ClampedRange(RequestedDays(periodDays)) ==> w.since == 0
    ensures periodDays.None? && w.until >= 28 * DAY_SECONDS ==> w.until - w.since == 28 * DAY_SECONDS
  {
    var until := nowMillis / 1000;
    var range := ClampedRange(RequestedDays(periodDays));
    var since := if until - range > 0 then until - range else 0;
    Window(since, until)
  }

  /** One metric of the daily account-insights reply: its name and `total_value.value`, if present. */
  datatype AccountMetric = AccountMetric(name: string, totalValue: Option<int>)

  datatype TimePoint = TimePoint(date: string, value: int)

  datatype DailyTotal = DailyTotal(last7Days: int, last28Days: int, timeseries: seq<TimePoint>)

  datatype AccountInsights = AccountInsights(followerCount: Option<int>, dailyTotals: map<string, DailyTotal>)

  /** The entry built for one metric: its total (0 when absent) for both periods and one sample. */
  function DailyTotalOf(metric: AccountMetric, date: string): DailyTotal {
    var total := metric.totalValue.GetOr(0);
    DailyTotal(total, total, [TimePoint(date, total)])
  }

  /** The `dailyTotals` reduce, as a left fold: a later metric of the same name overwrites.
      `clock(i)` is what `new Date().toISOString()` gives while the i-th metric is reduced. */
  function DailyTotalsOf(data: seq<AccountMetric>, clock: nat -> string): map<string, DailyTotal>
    decreases |data|
  {
    if data == [] then map[]
    else
      var last := data[|data| - 1];
      DailyTotalsOf(data[..|data| - 1], clock)[last.name := DailyTotalOf(last, clock(|data| - 1))]
  }

  /** The reduce itself, reading the clock once per metric. */
  method ReduceDailyTotals(data: seq<AccountMetric>, clock: nat -> string) returns (acc: map<string, DailyTotal>)
    ensures acc == DailyTotalsOf(data, clock)
  {
    acc := map[];
    var i := 0;
    while i < |data|
      invariant 0 <= i <= |data|
      invariant acc == DailyTotalsOf(data[..i], clock)
    {
      acc := acc[data[i].name := DailyTotalOf(data[i], clock(i))];
      assert data[..i + 1][..i] == data[..i];
      i := i + 1;
    }
    assert data[..i] == data;
  }

  /** The roll-up has one entry per metric name; each has equal 7- and 28-day totals, taken from the
      last metric of that name (0 when it has no total), and a single sample of that value stamped
      with the time read while that metric was reduced. */
  lemma {:induction false} DailyTotalsEntry(data: seq<AccountMetric>, clock: nat -> string, name: string)
    ensures name in DailyTotalsOf(data, clock) <==> exists i :: 0 <= i < |data| && data[i].name == name
    ensures name in DailyTotalsOf(data, clock) ==>
      var t := DailyTotalsOf(data, clock)[name];
      t.last7Days == t.last28Days
      && (exists i :: 0 <= i < |data| && data[i].name == name && t.last7Days == data[i].totalValue.GetOr(0)
                      && t.timeseries == [TimePoint(clock(i), t.last7Days)]
                      && forall j :: i < j < |data| ==> data[j].name != name)
    decreases |data|
  {
    if data != [] {
      var init := data[..|data| - 1];
      var last := data[|data| - 1];
      DailyTotalsEntry(init, clock, name);
      assert forall i :: 0 <= i < |init| ==> init[i] == data[i];
      if last.name != name && name in DailyTotalsOf(data, clock) {
        var t := DailyTotalsOf(data, clock)[name];
        var i :| 0 <= i < |init| && init[i].name == name && t.last7Days == init[i].totalValue.GetOr(0)
          && t.timeseries == [TimePoint(clock(i), t.last7Days)]
          && forall j :: i < j < |init| ==> init[j].name != name;
        assert data[i] == init[i];
      }
    }
  }

  /** `fetchAccountInsights` after its two requests: the window it asked for, and the insights or the
      error it throws. The daily reply is checked before the follower reply. */
  method FetchAccountInsights(periodDays: Option<int>, nowMillis: nat, daily: Reply<seq<AccountMetric>>,
                              follower: Reply<Option<int>>, parseJson: string -> Option<ErrorPayload>,
                              clock: nat -> string)
    returns (window: Window, result: Result<AccountInsights, GraphError>)
    ensures window == AccountWindow(periodDays, nowMillis)
    ensures daily.Failure? ==>
      result == Err(HandleGraphError(daily.status, daily.text, parseJson, "Failed to fetch account insights"))
    ensures daily.Success? && follower.Failure? ==>
      result == Err(HandleGraphError(follower.status, follower.text, parseJson, "Failed to fetch follower count"))
    ensures daily.Success? && follower.Success? ==>
      result == Ok(AccountInsights(follower.json, DailyTotalsOf(daily.json, clock)))
  {
    window := AccountWindow(periodDays, nowMillis);
    if daily.Failure? {
      result := Err(HandleGraphError(daily.status, daily.text, parseJson, "Failed to fetch account insights"));
      return;
    }
    if follower.Failure? {
      result := Err(HandleGraphError(follower.status, follower.text, parseJson, "Failed to fetch follower count"));
      return;
    }
    var totals := ReduceDailyTotals(daily.json, clock);
    result := Ok(AccountInsights(follower.json, totals));
  }
}
