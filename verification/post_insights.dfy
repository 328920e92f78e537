/** The per-post insights card (app/components/PostInsights.tsx): which metrics it shows and in what
    order, how a watch time is written, and the state its fetch goes through. */
module PostInsights {
  import opened Wrappers
  import opened Text
  import ViewModel

  /** The display name of each metric the card knows. */
  const METRIC_LABELS: map<string, string> := map[
    "reach" := "Reach",
    "saved" := "Saves",
    "views" := "Views",
    "likes" := "Likes",
    "comments" := "Comments",
    "shares" := "Shares",
    "total_interactions" := "Total Interactions",
    "follows" := "New Follows",
    "profile_visits" := "Profile Visits",
    "profile_activity" := "Profile Actions",
    "ig_reels_avg_watch_time" := "Avg Watch Time",
    "ig_reels_video_view_total_time" := "Total Watch Time"]

  /** The order in which metrics are shown. */
  const METRIC_ORDER: seq<string> := [
    "reach", "views", "total_interactions", "likes", "comments", "shares", "saved", "follows",
    "profile_visits", "profile_activity", "ig_reels_avg_watch_time", "ig_reels_video_view_total_time"]

  /** `orderedMetrics`: the metrics of the order list that the fetched map has, in that order. */
  function OrderedMetrics(insights: map<string, int>): (shown: seq<string>)
    ensures forall m :: m in shown <==> m in METRIC_ORDER && m in insights
    ensures ViewModel.IsSubsequence(shown, METRIC_ORDER)
    ensures ViewModel.NoDuplicates(shown)
  {
    ViewModel.KeepPresentIsSubsequence(METRIC_ORDER, insights.Keys);
    MetricOrderDistinct();
    ViewModel.KeepPresentDistinct(METRIC_ORDER, insights.Keys);
    ViewModel.KeepPresent(METRIC_ORDER, insights.Keys)
  }

  lemma MetricOrderDistinct()
    ensures ViewModel.NoDuplicates(METRIC_ORDER)
  {
  }

  /** `METRIC_LABELS[metric] ?? metric`. */
  function Label(metric: string): (shownName: string)
    ensures metric in METRIC_LABELS ==> shownName == METRIC_LABELS[metric]
    ensures metric !in METRIC_LABELS ==> shownName == metric
  {
    if metric in METRIC_LABELS then METRIC_LABELS[metric] else metric
  }

  /** Every metric the card can show has a label of its own, so the fallback to the raw name
      never applies to a shown metric. */
  lemma ShownMetricsAreLabelled(insights: map<string, int>)
    ensures forall m :: m in OrderedMetrics(insights) ==> m in METRIC_LABELS && Label(m) == METRIC_LABELS[m]
  {
  }

  // ---------------------------------------------------------------------------
  // Watch times
  // ---------------------------------------------------------------------------

  /** A metric is shown as a duration when its name contains `watch_time`. */
  predicate IsTimeMetric(metric: string) {
    Contains(metric, "watch_time")
  }

  /** The average watch time is shown as a duration, but the total watch time is not: its name
      spells `total_time`, so it is shown as a plain number. */
  lemma WhichMetricsAreDurations()
    ensures IsTimeMetric("ig_reels_avg_watch_time")
    ensures !IsTimeMetric("ig_reels_video_view_total_time")
    ensures !IsTimeMetric("reach")
  {
    var avg := "ig_reels_avg_watch_time";
    assert avg[13..13 + |"watch_time"|] == "watch_time";
    assert OccursAt(avg, "watch_time", 13);
    var total := "ig_reels_video_view_total_time";
    forall i | 0 <= i <= |total| ensures !OccursAt(total, "watch_time", i) {
      if OccursAt(total, "watch_time", i) {
        assert total[i] == 'w' && total[i + 1] == 'a' by {
          assert total[i..i + 10][0] == 'w' && total[i..i + 10][1] == 'a';
        }
        assert false;
      }
    }
    var reach := "reach";
    assert |reach| < |"watch_time"|;
  }

  /** JavaScript's `value % 60`: the remainder takes the sign of the dividend. */
  function JsRemainder60(v: int): (r: int)
    ensures v >= 0 ==> 0 <= r < 60
    ensures v < 0 ==> -60 < r <= 0
    ensures (v - r) % 60 == 0
  {
    if v >= 0 then v % 60 else -((-v) % 60)
  }

  /** `Math.floor(value / 60)` and `value % 60`. */
  function WatchTimeParts(v: int): (parts: (int, int))
    ensures 60 * parts.0 <= v < 60 * parts.0 + 60
    ensures parts.1 == JsRemainder60(v)
  {
    (v / 60, JsRemainder60(v))
  }

  /** For a non-negative watch time the two parts are the minutes and the leftover seconds. */
  lemma WatchTimePartsSplit(v: nat)
    ensures var (m, s) := WatchTimeParts(v);
      m >= 0 && 60 * m + s == v && 0 <= s < 60
  {
  }

  /** `displayValue`: a duration `<m>m <s>s` for a time metric, else the locale rendering of the number
      (`toLocaleString`, a parameter here). */
  function DisplayValue(metric: string, value: int, formatNumber: int -> string): (text: string)
    ensures !IsTimeMetric(metric) ==> text == formatNumber(value)
  {
    if IsTimeMetric(metric) then
      var (m, s) := WatchTimeParts(value);
      IntToString(m) + "m " + IntToString(s) + "s"
    else formatNumber(value)
  }

  /** A non-negative watch time is written as its whole minutes and remaining seconds, each in decimal. */
  lemma WatchTimeDisplay(metric: string, v: nat, formatNumber: int -> string)
    requires IsTimeMetric(metric)
    ensures exists m: nat, s: nat ::
      60 * m + s == v && s < 60
      && DisplayValue(metric, v, formatNumber) == IntToString(m) + "m " + IntToString(s) + "s"
  {
    WatchTimePartsSplit(v);
    var (m, s) := WatchTimeParts(v);
    assert 60 * m + s == v && 0 <= s < 60 && m >= 0;
    var mn: nat, sn: nat := m, s;
    assert DisplayValue(metric, v, formatNumber) == IntToString(mn) + "m " + IntToString(sn) + "s";
  }

  // ---------------------------------------------------------------------------
  // The request
  // ---------------------------------------------------------------------------

  /** The query string: `?type=` and the encoded media type when one is given (`encodeURIComponent`
      is a parameter). */
  function InsightsQuery(mediaType: Option<string>, encode: string -> string): (query: string)
    ensures query == "" <==> !Truthy(mediaType)
    ensures Truthy(mediaType) ==> |query| >= 6 && query[..6] == "?type=" && query[6..] == encode(mediaType.value)
  {
    if Truthy(mediaType) then "?type=" + encode(mediaType.value) else ""
  }

  // ---------------------------------------------------------------------------
  // Fetch state and view
  // ---------------------------------------------------------------------------

  datatype Status = Idle | Loading | Failed | Ready

  /** How a fetch ended: a non-OK response with its error body (`{}` when unreadable), an OK response
      with its `insights` field, or an exception. */
  datatype FetchResult = NotOk(body: ViewModel.ErrorBody) | Ok(insights: Option<map<string, int>>) | Threw

  const TEXTS: ViewModel.Texts := ViewModel.Texts(
    "Session expired. Reconnect to view insights.",
    "Unable to load insights.",
    "Unexpected error while loading insights.")

  /** What the card shows. */
  datatype View =
    | LoadingView
    | ErrorView(message: Option<string>)
    | EmptyView
    | MetricsView(cells: seq<(string, string)>)

  /** The card's state: the React state of the component. */
  class Card {
    var status: Status
    var errorMessage: Option<string>
    var insights: map<string, int>

    /** An error status always has a message; an idle card has fetched nothing. */
    predicate Valid()
      reads this
    {
      && (status == Failed ==> errorMessage.Some?)
      && (status == Idle ==> errorMessage.None? && insights == map[])
    }

    constructor ()
      ensures status == Idle && errorMessage == None && insights == map[]
      ensures Valid()
    {
      status := Idle;
      errorMessage := None;
      insights := map[];
    }

    /** The start of `fetchInsights`: loading, message cleared, previous metrics kept. */
    method BeginFetch()
      modifies this
      ensures status == Loading && errorMessage == None && insights == old(insights)
      ensures Valid()
    {
      status := Loading;
      errorMessage := None;
    }

    /** The end of `fetchInsights`. A failure keeps the previous metrics; success replaces them
        (`json.insights ?? {}`) and leaves the message as it was. */
    method CompleteFetch(result: FetchResult)
      modifies this
      ensures result.NotOk? ==>
        status == Failed && errorMessage == Some(ViewModel.ErrorMessage(result.body, TEXTS)) && insights == old(insights)
      ensures result.Threw? ==>
        status == Failed && errorMessage == Some(TEXTS.unexpected) && insights == old(insights)
      ensures result.Ok? ==>
        status == Ready && errorMessage == old(errorMessage)
        && insights == (if result.insights.Some? then result.insights.value else map[])
      ensures Valid()
    {
      match result
      case NotOk(body) =>
        status := Failed;
        errorMessage := Some(ViewModel.ErrorMessage(body, TEXTS));
      case Threw =>
        status := Failed;
        errorMessage := Some(TEXTS.unexpected);
      case Ok(fetched) =>
        insights := if fetched.Some? then fetched.value else map[];
        status := Ready;
    }
  }

  /** The render: without metrics, loading and error have their own views and every other status shows
      the empty text; with metrics the cells are shown whatever the status. */
  function ViewOf(status: Status, errorMessage: Option<string>, insights: map<string, int>,
                  formatNumber: int -> string): (view: View)
    ensures OrderedMetrics(insights) == [] ==>
      view == (if status == Loading then LoadingView
               else if status == Failed then ErrorView(errorMessage)
               else EmptyView)
    ensures OrderedMetrics(insights) != [] ==>
      view.MetricsView? && |view.cells| == |OrderedMetrics(insights)|
      && forall i :: 0 <= i < |view.cells| ==>
           var m := OrderedMetrics(insights)[i];
           view.cells[i] == Cell(m, insights[m], formatNumber)
  {
    var metrics := OrderedMetrics(insights);
    if status == Loading && metrics == [] then LoadingView
    else if status == Failed && metrics == [] then ErrorView(errorMessage)
    else if metrics == [] then EmptyView
    else MetricsView(Cells(metrics, insights, formatNumber))
  }

  /** The label and display value of each shown metric. */
  function Cells(metrics: seq<string>, insights: map<string, int>, formatNumber: int -> string): (cells: seq<(string, string)>)
    requires forall m :: m in metrics ==> m in insights
    ensures |cells| == |metrics|
    ensures forall i :: 0 <= i < |metrics| ==> cells[i] == Cell(metrics[i], insights[metrics[i]], formatNumber)
  {
    if metrics == [] then []
    else [Cell(metrics[0], insights[metrics[0]], formatNumber)] + Cells(metrics[1..], insights, formatNumber)
  }

  /** One cell: the metric's label and its display value. */
  function Cell(metric: string, value: int, formatNumber: int -> string): (string, string) {
    (Label(metric), DisplayValue(metric, value, formatNumber))
  }

  /** A failed fetch with no metrics to fall back on shows the chosen error text. */
  lemma FailureWithoutMetricsShowsMessage(body: ViewModel.ErrorBody, insights: map<string, int>, formatNumber: int -> string)
    requires OrderedMetrics(insights) == []
    ensures ViewOf(Failed, Some(ViewModel.ErrorMessage(body, TEXTS)), insights, formatNumber)
      == ErrorView(Some(ViewModel.ErrorMessage(body, TEXTS)))
  {
  }

  /** Keys outside the order list are never shown: a map holding only such keys renders like an empty one. */
  lemma UnknownMetricsHidden(status: Status, errorMessage: Option<string>, insights: map<string, int>,
                             formatNumber: int -> string)
    requires forall m :: m in insights ==> m !in METRIC_ORDER
    ensures ViewOf(status, errorMessage, insights, formatNumber) == ViewOf(status, errorMessage, map[], formatNumber)
  {
    ViewModel.KeepPresentNone(METRIC_ORDER, insights.Keys);
    var none: map<string, int> := map[];
    ViewModel.KeepPresentNone(METRIC_ORDER, none.Keys);
    SameViewWithoutMetrics(status, errorMessage, insights, none, formatNumber);
  }

  /** With nothing to show, the view depends on the status and the message alone. */
  lemma SameViewWithoutMetrics(status: Status, errorMessage: Option<string>, a: map<string, int>, b: map<string, int>,
                               formatNumber: int -> string)
    requires ViewModel.KeepPresent(METRIC_ORDER, a.Keys) == [] && ViewModel.KeepPresent(METRIC_ORDER, b.Keys) == []
    ensures ViewOf(status, errorMessage, a, formatNumber) == ViewOf(status, errorMessage, b, formatNumber)
  {
    assert OrderedMetrics(a) == [] && OrderedMetrics(b) == [];
  }
}
