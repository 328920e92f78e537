/** The account insights table (app/components/AccountInsightsTable.tsx): the rows it derives from the
    fetched totals and the state its fetch goes through, including the silent refresh after a new post. */
module AccountInsightsTable {
  import opened Wrappers
  import Graph
  import ViewModel

  const METRIC_LABELS: map<string, string> := map[
    "reach" := "Reach",
    "profile_views" := "Profile Views",
    "website_clicks" := "Website Clicks",
    "accounts_engaged" := "Accounts Engaged",
    "total_interactions" := "Total Interactions",
    "likes" := "Likes",
    "comments" := "Comments",
    "shares" := "Shares",
    "saves" := "Saves",
    "profile_links_taps" := "Profile Link Taps",
    "views" := "Views"]

  const METRIC_ORDER: seq<string> := [
    "reach", "views", "accounts_engaged", "total_interactions", "likes", "comments", "shares", "saves",
    "profile_views", "profile_links_taps", "website_clicks"]

  /** The account-insights response the table reads: the page, and the insights when present. */
  datatype AccountData = AccountData(pageName: string, instagramBusinessId: string, insights: Option<Graph.AccountInsights>)

  /** One table row: a metric, its label and its two totals. */
  datatype Row = Row(metric: string, title: string, last7Days: int, last28Days: int)

  function Label(metric: string): string {
    if metric in METRIC_LABELS then METRIC_LABELS[metric] else metric
  }

  /** The row of a metric present in the totals, its numbers copied unchanged. */
  function RowOf(metric: string, totals: map<string, Graph.DailyTotal>): Row
    requires metric in totals
  {
    Row(metric, Label(metric), totals[metric].last7Days, totals[metric].last28Days)
  }

  function RowsOf(metrics: seq<string>, totals: map<string, Graph.DailyTotal>): (rows: seq<Row>)
    requires forall m :: m in metrics ==> m in totals
    ensures |rows| == |metrics|
    ensures forall i :: 0 <= i < |metrics| ==> rows[i] == RowOf(metrics[i], totals)
  {
    if metrics == [] then [] else [RowOf(metrics[0], totals)] + RowsOf(metrics[1..], totals)
  }

  /** `rows`: no rows without insights; otherwise one row per metric of the order list that the totals
      have, in that order. */
  function Rows(data: Option<AccountData>): (rows: seq<Row>)
    ensures data.None? || data.value.insights.None? ==> rows == []
    ensures data.Some? && data.value.insights.Some? ==>
      var totals := data.value.insights.value.dailyTotals;
      var metrics := ViewModel.KeepPresent(METRIC_ORDER, totals.Keys);
      |rows| == |metrics| && forall i :: 0 <= i < |rows| ==> rows[i] == RowOf(metrics[i], totals)
  {
    if data.None? || data.value.insights.None? then []
    else
      var totals := data.value.insights.value.dailyTotals;
      RowsOf(ViewModel.KeepPresent(METRIC_ORDER, totals.Keys), totals)
  }

  /** The metric column of a list of rows. */
  function RowMetrics(rows: seq<Row>): (metrics: seq<string>)
    ensures |metrics| == |rows| && forall i :: 0 <= i < |rows| ==> metrics[i] == rows[i].metric
  {
    seq(|rows|, i requires 0 <= i < |rows| => rows[i].metric)
  }

  lemma MetricOrderDistinct()
    ensures ViewModel.NoDuplicates(METRIC_ORDER)
  {
  }

  lemma MetricOrderLabelled()
    ensures forall m :: m in METRIC_ORDER ==> m in METRIC_LABELS
  {
  }

  /** The metrics of the rows follow the order list, skip the metrics the totals lack and never repeat. */
  lemma RowsFollowOrder(data: AccountData, insights: Graph.AccountInsights)
    requires data.insights == Some(insights)
    ensures ViewModel.IsSubsequence(RowMetrics(Rows(Some(data))), METRIC_ORDER)
    ensures ViewModel.NoDuplicates(RowMetrics(Rows(Some(data))))
    ensures forall m :: m in RowMetrics(Rows(Some(data))) <==> m in METRIC_ORDER && m in insights.dailyTotals
  {
    var totals := insights.dailyTotals;
    MetricOrderDistinct();
    RowMetricsFollow(Rows(Some(data)), METRIC_ORDER, totals);
  }

  /** Rows built from the present metrics of a duplicate-free order list follow that list. */
  lemma RowMetricsFollow(rows: seq<Row>, order: seq<string>, totals: map<string, Graph.DailyTotal>)
    requires ViewModel.NoDuplicates(order)
    requires var metrics := ViewModel.KeepPresent(order, totals.Keys);
      |rows| == |metrics| && forall i :: 0 <= i < |rows| ==> metrics[i] in totals && rows[i] == RowOf(metrics[i], totals)
    ensures ViewModel.IsSubsequence(RowMetrics(rows), order)
    ensures ViewModel.NoDuplicates(RowMetrics(rows))
    ensures forall m :: m in RowMetrics(rows) <==> m in order && m in totals
  {
    var metrics := ViewModel.KeepPresent(order, totals.Keys);
    ViewModel.KeepPresentIsSubsequence(order, totals.Keys);
    ViewModel.KeepPresentDistinct(order, totals.Keys);
    RowMetricsAreMetrics(rows, metrics, totals);
  }

  /** Rows built one per metric carry those metrics, in order. */
  lemma RowMetricsAreMetrics(rows: seq<Row>, metrics: seq<string>, totals: map<string, Graph.DailyTotal>)
    requires |rows| == |metrics|
    requires forall i :: 0 <= i < |rows| ==> metrics[i] in totals && rows[i] == RowOf(metrics[i], totals)
    ensures RowMetrics(rows) == metrics
  {
  }

  /** Each row carries its metric's own label, never the raw name, and copies both totals unchanged. */
  lemma RowsCopyTotals(data: AccountData, insights: Graph.AccountInsights)
    requires data.insights == Some(insights)
    ensures forall r :: r in Rows(Some(data)) ==>
      && r.metric in METRIC_LABELS && r.title == METRIC_LABELS[r.metric]
      && r.metric in insights.dailyTotals
      && r.last7Days == insights.dailyTotals[r.metric].last7Days
      && r.last28Days == insights.dailyTotals[r.metric].last28Days
  {
    MetricOrderLabelled();
    var rows := Rows(Some(data));
    var kept := ViewModel.KeepPresent(METRIC_ORDER, insights.dailyTotals.Keys);
    forall r | r in rows
      ensures r.metric in METRIC_LABELS && r.title == METRIC_LABELS[r.metric]
      ensures r.metric in insights.dailyTotals
      ensures r.last7Days == insights.dailyTotals[r.metric].last7Days
      ensures r.last28Days == insights.dailyTotals[r.metric].last28Days
    {
      var i :| 0 <= i < |rows| && rows[i] == r;
      assert kept[i] in kept;
    }
  }

  // ---------------------------------------------------------------------------
  // Fetch state
  // ---------------------------------------------------------------------------

  datatype Status = Loading | Ready | Failed

  /** How a fetch ended: a non-OK response with its error body, an OK response, or an exception. */
  datatype FetchResult = NotOk(body: ViewModel.ErrorBody) | Ok(data: AccountData) | Threw

  const TEXTS: ViewModel.Texts := ViewModel.Texts(
    "Session expired. Reconnect to refresh insights.",
    "Unable to load account insights.",
    "Unexpected error while loading account insights.")

  /** The table's state: the React state of the component. */
  class Table {
    var status: Status
    var errorMessage: Option<string>
    var data: Option<AccountData>

    /** An error status always has a message. */
    predicate Valid()
      reads this
    {
      status == Failed ==> errorMessage.Some?
    }

    constructor ()
      ensures status == Loading && errorMessage == None && data == None
      ensures Valid()
    {
      status := Loading;
      errorMessage := None;
      data := None;
    }

    /** The start of `fetchAccountInsights`: a refresh asked for by the user shows the loading state and
        clears the message; a silent one (after a new post) changes nothing. */
    method BeginFetch(silent: bool)
      requires Valid()
      modifies this
      ensures silent ==> status == old(status) && errorMessage == old(errorMessage) && data == old(data)
      ensures !silent ==> status == Loading && errorMessage == None && data == old(data)
      ensures Valid()
    {
      if !silent {
        status := Loading;
        errorMessage := None;
      }
    }

    /** The end of `fetchAccountInsights`: a failure keeps the previous data; success stores the new data
        and leaves the message as it was. */
    method CompleteFetch(result: FetchResult)
      modifies this
      ensures result.NotOk? ==>
        status == Failed && errorMessage == Some(ViewModel.ErrorMessage(result.body, TEXTS)) && data == old(data)
      ensures result.Threw? ==> status == Failed && errorMessage == Some(TEXTS.unexpected) && data == old(data)
      ensures result.Ok? ==> status == Ready && errorMessage == old(errorMessage) && data == Some(result.data)
      ensures Valid()
    {
      match result
      case NotOk(body) =>
        status := Failed;
        errorMessage := Some(ViewModel.ErrorMessage(body, TEXTS));
      case Threw =>
        status := Failed;
        errorMessage := Some(TEXTS.unexpected);
      case Ok(fetched) =>
        data := Some(fetched);
        status := Ready;
    }

    /** The rows the table currently derives. */
    function CurrentRows(): seq<Row>
      reads this
    {
      Rows(data)
    }
  }

  /** A silent refresh that fails while an earlier table is shown replaces the table by the error, and
      the rows are still derived from the earlier data. */
  method SilentRefreshFails(table: Table, body: ViewModel.ErrorBody)
    requires table.Valid() && table.status == Ready
    modifies table
    ensures table.status == Failed && table.errorMessage == Some(ViewModel.ErrorMessage(body, TEXTS))
    ensures table.CurrentRows() == old(table.CurrentRows())
  {
    table.BeginFetch(true);
    table.CompleteFetch(NotOk(body));
  }
}
