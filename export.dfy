/**
 * The metrics download of app1.py: offered only when the option is set and
 * the metrics fetch succeeded, with one (Metric, Value) row per key of the
 * metrics dict in its own order. The CSV text encoding is not modelled.
 */
module MetricsDownload {
  import opened PyJson
  import opened Adapters

  datatype ExportRow = ExportRow(metric: string, value: Json)

  datatype MetricsExport = MetricsExport(fileName: string, header: (string, string), rows: seq<ExportRow>)

  const ExportHeader: (string, string) := ("Metric", "Value")
  const ExportSuffix: string := "_metrics.csv"

  /** `f"{ticker}_metrics.csv"` */
  function ExportFileName(ticker: string): (name: string)
    ensures |name| == |ticker| + |ExportSuffix|
    ensures name[..|ticker|] == ticker && name[|ticker|..] == ExportSuffix
  {
    ticker + ExportSuffix
  }

  /** The rows of `DataFrame({"Metric": keys, "Value": values})`. */
  function ExportRows(o: Obj): (rows: seq<ExportRow>)
    ensures |rows| == |o|
    ensures forall k :: 0 <= k < |o| ==> rows[k].metric == o[k].0 && rows[k].value == o[k].1
  {
    seq(|o|, k requires 0 <= k < |o| => ExportRow(o[k].0, o[k].1))
  }

  /**
   * For a dict the rows list each key exactly once, in the dict's order,
   * each beside the value the dict maps it to.
   */
  lemma ExportRowsListTheDict(o: Obj)
    requires UniqueKeys(o)
    ensures var rows := ExportRows(o);
      (forall k :: 0 <= k < |rows| ==> Get(o, rows[k].metric) == Some(rows[k].value))
      && (forall i, j :: 0 <= i < j < |rows| ==> rows[i].metric != rows[j].metric)
      && (forall key :: key in Keys(o) <==> exists k :: 0 <= k < |rows| && rows[k].metric == key)
  {
  }

  /** `if download_option and "error" not in metrics`: the file offered for download, if any. */
  function Export(ticker: string, download: bool, metrics: Json): (e: Option<MetricsExport>)
    ensures e.Some? <==> download && metrics.JObj? && !IsErrorMarker(metrics)
    ensures e.Some? ==> e.value.rows == ExportRows(metrics.fields)
    ensures e.Some? ==> e.value.header == ExportHeader && e.value.fileName == ExportFileName(ticker)
  {
    // A metrics result that is not a dict never gets here: the Metrics tab raises on it first.
    if download && metrics.JObj? && !IsErrorMarker(metrics) then
      Some(MetricsExport(ExportFileName(ticker), ExportHeader, ExportRows(metrics.fields)))
    else None
  }
}
