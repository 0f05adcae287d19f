/**
 * The Profile and Metrics tabs of app1.py: the error check every tab makes
 * of its fetch result, the fixed tables built with `dict.get(key, "N/A")`,
 * and the income chart series.
 */
module Presentation {
  import opened PyJson
  import opened Adapters

  /**
   * What one tab ends up showing: its content, the message of a failed
   * fetch, or nothing because rendering raised an uncaught exception (which
   * stops the script); a tab after a raising one is never reached.
   */
  datatype Section<+T> = Shown(content: T) | ErrorShown(message: Json) | Raised | NotReached

  /** The outcome of `if "error" in x: st.error(x["error"])`. */
  datatype Gate = Proceed | Report(message: Json) | Crash

  function ErrorGate(v: Json): (g: Gate)
    ensures g.Report? <==> IsErrorMarker(v)
    ensures g.Report? ==> Get(v.fields, "error") == Some(g.message)
    ensures v.JObj? && !IsErrorMarker(v) ==> g.Proceed?
    ensures !(v.JObj? || v.JArr? || v.JStr?) ==> g.Crash?
  {
    match Contains(v, "error")
    case Raise(_) => Crash
    case Ok(false) => Proceed
    case Ok(true) =>
      match Subscript(v, "error")
      case Ok(m) => Report(m)
      case Raise(_) => Crash
  }

  const NotAvailable: Json := JStr("N/A")

  /**
   * A display table `{label: payload.get(key, "N/A")}` over a fixed list of
   * (label, key) pairs, in the order of that list.
   */
  function Table(o: Obj, fields: seq<(string, string)>): (rows: seq<(string, Json)>)
    ensures |rows| == |fields|
    ensures forall k :: 0 <= k < |fields| ==> rows[k].0 == fields[k].0
    ensures forall k :: 0 <= k < |fields| ==>
      rows[k].1 == (if fields[k].1 in Keys(o) then Get(o, fields[k].1).value else NotAvailable)
  {
    if fields == [] then []
    else [(fields[0].0, GetOr(o, fields[0].1, NotAvailable))] + Table(o, fields[1..])
  }

  /** A table looks at its listed keys only: payloads that agree on them give the same table. */
  lemma TableReadsOnlyListedKeys(o1: Obj, o2: Obj, fields: seq<(string, string)>)
    requires forall k :: 0 <= k < |fields| ==> Get(o1, fields[k].1) == Get(o2, fields[k].1)
    ensures Table(o1, fields) == Table(o2, fields)
  {
  }

  // ----- Profile tab -----

  const ProfileTextFields: seq<(string, string)> := [
    ("Name", "name"),
    ("Ticker", "ticker"),
    ("Industry", "finnhubIndustry"),
    ("Country", "country"),
    ("Exchange", "exchange")
  ]
  const MarketCapLabel: string := "Market Cap (in Billion)"
  const SharesLabel: string := "Share Outstanding"

  /**
   * A profile table cell: a payload value shown as it is, or a number shown
   * with thousands separators and two decimals (the `:,.2f` rendering itself
   * is not modelled).
   */
  datatype Cell = Text(value: Json) | TwoDecimals(amount: Json)

  datatype ProfileView = ProfileView(rows: seq<(string, Cell)>, logo: Option<Json>, website: Option<Json>)

  /**
   * The profile table. Market cap and shares outstanding default to 0; a
   * value there that is not a number makes the `:,.2f` format raise.
   */
  function ProfileRows(o: Obj): (rows: Option<seq<(string, Cell)>>)
    ensures rows.Some? <==>
      IsNumber(GetOr(o, "marketCapitalization", JInt(0))) && IsNumber(GetOr(o, "shareOutstanding", JInt(0)))
    ensures rows.Some? ==> |rows.value| == |ProfileTextFields| + 2
    ensures rows.Some? ==> forall k :: 0 <= k < |ProfileTextFields| ==>
      var key := ProfileTextFields[k].1;
      rows.value[k] == (ProfileTextFields[k].0, Text(if key in Keys(o) then Get(o, key).value else NotAvailable))
    ensures rows.Some? ==> rows.value[5].0 == MarketCapLabel && rows.value[6].0 == SharesLabel
    ensures rows.Some? && "marketCapitalization" !in Keys(o) ==> rows.value[5].1 == TwoDecimals(JInt(0))
    ensures rows.Some? && "shareOutstanding" !in Keys(o) ==> rows.value[6].1 == TwoDecimals(JInt(0))
    ensures rows.Some? && "marketCapitalization" in Keys(o) ==>
      rows.value[5].1 == TwoDecimals(Get(o, "marketCapitalization").value)
    ensures rows.Some? && "shareOutstanding" in Keys(o) ==>
      rows.value[6].1 == TwoDecimals(Get(o, "shareOutstanding").value)
  {
    var text := Table(o, ProfileTextFields);
    var cap := GetOr(o, "marketCapitalization", JInt(0));
    var shares := GetOr(o, "shareOutstanding", JInt(0));
    if IsNumber(cap) && IsNumber(shares) then
      Some(seq(|text|, k requires 0 <= k < |text| => (text[k].0, Text(text[k].1)))
           + [(MarketCapLabel, TwoDecimals(cap)), (SharesLabel, TwoDecimals(shares))])
    else None
  }

  /** `if profile.get(key): ...` — the value, when it is present and truthy. */
  function TruthyGet(o: Obj, key: string): (r: Option<Json>)
    ensures r.Some? <==> key in Keys(o) && Truthy(Get(o, key).value)
    ensures r.Some? ==> Get(o, key) == r
  {
    match Get(o, key)
    case Some(v) => if Truthy(v) then Some(v) else None
    case None => None
  }

  /** The Profile tab for the result of fetch_company_profile. */
  function ProfileSection(p: Json): (s: Section<ProfileView>)
    ensures !s.NotReached?
    ensures s.ErrorShown? <==> IsErrorMarker(p)
    ensures s.ErrorShown? ==> Get(p.fields, "error") == Some(s.message)
    ensures s.Shown? <==> p.JObj? && !IsErrorMarker(p) && ProfileRows(p.fields).Some?
    ensures s.Shown? ==> s.content.rows == ProfileRows(p.fields).value
    ensures s.Shown? ==> s.content.logo == TruthyGet(p.fields, "logo")
    ensures s.Shown? ==> s.content.website == TruthyGet(p.fields, "weburl")
  {
    match ErrorGate(p)
    case Crash => Raised
    case Report(m) => ErrorShown(m)
    case Proceed =>
      if !p.JObj? then Raised   // `.get` is a dict method
      else
        match ProfileRows(p.fields)
        case None => Raised
        case Some(rows) => Shown(ProfileView(rows, TruthyGet(p.fields, "logo"), TruthyGet(p.fields, "weburl")))
  }

  // ----- Metrics tab -----

  const IncomeFields: seq<(string, string)> := [
    ("Revenue Per Share", "revenuePerShareAnnual"),
    ("Net Income", "netIncomeAnnual")
  ]
  const BalanceFields: seq<(string, string)> := [
    ("Total Assets", "totalAssets"),
    ("Total Liabilities", "totalLiabilities")
  ]
  const ValuationFields: seq<(string, string)> := [
    ("P/E Ratio", "peNormalizedAnnual"),
    ("EV/EBITDA", "enterpriseValueOverEBITDA")
  ]

  datatype MetricsView = MetricsView(
    income: seq<(string, Json)>,
    balance: seq<(string, Json)>,
    valuation: seq<(string, Json)>,
    chart: seq<(string, Json)>)

  /**
   * The chart series of the income table: the same labels in the same
   * order, numbers kept and anything else plotted as 0.
   */
  function ChartSeries(income: seq<(string, Json)>): (chart: seq<(string, Json)>)
    ensures |chart| == |income|
    ensures forall k :: 0 <= k < |income| ==> chart[k].0 == income[k].0 && IsNumber(chart[k].1)
    ensures forall k :: 0 <= k < |income| && IsNumber(income[k].1) ==> chart[k].1 == income[k].1
    ensures forall k :: 0 <= k < |income| && !IsNumber(income[k].1) ==> chart[k].1 == JInt(0)
  {
    seq(|income|, k requires 0 <= k < |income| =>
      (income[k].0, if IsNumber(income[k].1) then income[k].1 else JInt(0)))
  }

  /** The Metrics tab for the result of fetch_detailed_metrics. */
  function MetricsSection(m: Json): (s: Section<MetricsView>)
    ensures !s.NotReached?
    ensures s.ErrorShown? <==> IsErrorMarker(m)
    ensures s.ErrorShown? ==> Get(m.fields, "error") == Some(s.message)
    ensures s.Shown? <==> m.JObj? && !IsErrorMarker(m)
    ensures s.Shown? ==>
      s.content == MetricsView(Table(m.fields, IncomeFields), Table(m.fields, BalanceFields),
                               Table(m.fields, ValuationFields), ChartSeries(Table(m.fields, IncomeFields)))
  {
    match ErrorGate(m)
    case Crash => Raised
    case Report(e) => ErrorShown(e)
    case Proceed =>
      if !m.JObj? then Raised   // `.get` is a dict method
      else
        var income := Table(m.fields, IncomeFields);
        Shown(MetricsView(income, Table(m.fields, BalanceFields), Table(m.fields, ValuationFields),
                          ChartSeries(income)))
  }

  /**
   * The income table shows the payload's own values even where the chart
   * plots 0: coercion for the chart never alters the table.
   */
  lemma ChartLeavesIncomeTableUnchanged(m: Json)
    requires MetricsSection(m).Shown?
    ensures var view := MetricsSection(m).content;
      |view.income| == |view.chart| == |IncomeFields|
      && forall k :: 0 <= k < |IncomeFields| ==>
           var key := IncomeFields[k].1;
           view.income[k].1 == (if key in Keys(m.fields) then Get(m.fields, key).value else NotAvailable)
           && view.chart[k].0 == view.income[k].0 == IncomeFields[k].0
           && view.chart[k].1 == (if IsNumber(view.income[k].1) then view.income[k].1 else JInt(0))
  {
  }
}
