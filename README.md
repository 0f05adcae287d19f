# Financial dashboard: a Dafny model of its decision logic

The repository is a single Streamlit script, `app1.py`, that asks for a
stock ticker, fetches a company profile, basic financial metrics and analyst
recommendation trends from Finnhub, and shows them in four tabs (Profile,
Metrics, Recommendations, Insights), with an optional CSV download of the
metrics. Everything around the network and the widgets is left out. What
remains is modelled here as pure functions:

- `PyJson` (`pyjson.dfy`): decoded payloads (`None`, bool, int, float, str,
  list, dict as an ordered association list) and the Python operators the
  script applies to them: truthiness, `in`, subscripting, iteration,
  `dict.get` and `isinstance(v, (int, float))`. Where Python raises, the
  model returns the exception's text.
- `Adapters` (`adapters.dfy`): `fetch_company_profile`,
  `fetch_detailed_metrics` and `fetch_recommendations`. A provider call is an
  input `Outcome`: `Returned(payload)` or `Failed(message)`.
- `Ticker` (`ticker.dfy`): `.upper().strip()` of the sidebar text and the
  empty check that refuses the request.
- `Presentation` (`presentation.dfy`): the `"error" in x` check each tab
  makes, the `get(key, "N/A")` tables of the Profile and Metrics tabs, and
  the income chart series.
- `Recommendations` (`recommendations.dfy`): the three `sum([...])` totals.
- `Insights` (`insights.dfy`): the strict pairwise-maximum label. The tab is
  modelled twice: as written and corrected (see Findings).
- `MetricsDownload` (`export.dfy`): the download gate and its
  (Metric, Value) rows.
- `Dashboard` (`dashboard.dfy`): one press of "Generate Result". The
  provider is a `Client` holding three functions from ticker to `Outcome`.
  Each tab is a `Section`: shown, error shown, raised or not reached. An
  uncaught exception stops a Streamlit script, so everything after a tab
  that raised is not reached.

Totals default to (0, 0, 0) when the recommendations fetch failed. That is
the corrected model, and it is what `Dashboard.Generate` uses. The script as
written leaves `buy`, `hold` and `sell` unbound in that case. The model of
that behaviour is `Dashboard.GenerateAsWritten`.

## Model

| member | source | states |
|---|---|---|
| `Adapters.ErrorMarker` | app1.py:22-47 | The `{"error": message}` literal: a dict whose only key is "error", mapped to the message. |
| `Adapters.FetchCompanyProfile` | app1.py:22-27 | A raised call becomes an error marker carrying "Error fetching company profile: " plus the message. A returned profile is passed on unchanged. The result is an error marker exactly when the call failed or the payload already had an "error" key. |
| `Adapters.FetchDetailedMetrics` | app1.py:30-37 | The result is never empty. A failed call gives `{"error": message}`. For a dict payload the result is its "metric" value when that is present and non-empty, and the "No metrics available" marker otherwise. Any other payload also gives an error marker: a scalar makes `in` raise a TypeError, which is caught; a list or string without "metric" in it takes the "No metrics available" branch; one with "metric" in it makes the subscript raise, which is caught. Any non-error result is exactly `payload["metric"]`. |
| `Adapters.FetchRecommendations` | app1.py:40-47 | The result is never empty. A failed call gives `{"error": message}`. An empty payload gives the "No recommendations available" marker. A non-empty payload is passed on unchanged. |
| `Ticker.Upper` | app1.py:55 | Keeps the length. Maps each ASCII lower-case letter 32 code points down and leaves every other character alone. No lower-case ASCII letter is left. Whitespace positions are unchanged. |
| `Ticker.Strip` | app1.py:55 | The result is a slice of the input with only whitespace before and after it, and no whitespace at either of its own ends. It is empty exactly when the input is all whitespace. |
| `Ticker.StripIsUniqueTrim` | app1.py:55 | `Strip(s)` is the one slice `s[i..j]` with only whitespace outside it and non-whitespace at both of its ends. |
| `Ticker.NormalizeTicker` | app1.py:55-61 | The fetched ticker is the upper-cased input with only whitespace cut from either end. It is empty exactly when the input was all whitespace. It has no lower-case ASCII letter and no surrounding whitespace. |
| `Ticker.UpperKeepsUpperCase` | app1.py:55 | Upper-casing a string without lower-case ASCII letters leaves it unchanged. |
| `Ticker.NormalizeTickerIsIdempotent` | app1.py:55 | Normalising an already normalised ticker changes nothing. |
| `Presentation.ErrorGate` | app1.py:75-76 | A tab reports an error exactly when its fetch result is a dict with an "error" key, and it shows that key's value. Any other dict proceeds. A scalar makes `in` raise. |
| `Presentation.Table` | app1.py:103-114 | One row per listed field, in list order, with the listed label. The value is the payload's value when the key is present and "N/A" otherwise. |
| `Presentation.TableReadsOnlyListedKeys` | app1.py:103-114 | Two payloads that agree on the listed keys give the same table, so keys outside the fixed list never show. |
| `Presentation.ProfileRows` | app1.py:79-87 | Gives the five text rows by `get(key, "N/A")`, then market cap and shares outstanding. Either of those two defaults to 0 when missing. The table exists exactly when both values are numbers, because `:,.2f` raises otherwise. |
| `Presentation.TruthyGet` | app1.py:92-95 | The logo and the website link are shown exactly when the key is present with a truthy value. |
| `Presentation.ProfileSection` | app1.py:74-95 | Shows an error exactly for an error marker, and shows that marker's message. Shows the profile exactly for a dict without "error" whose numeric fields format. Any other input raises. |
| `Presentation.ChartSeries` | app1.py:125-128 | The same labels in the same order as the income table. Every value is a number: numbers are kept and any other value becomes 0. |
| `Presentation.MetricsSection` | app1.py:98-128 | Shows an error exactly for an error marker. Shows the tables exactly for any other dict: the income, balance and valuation `Table`s of their fixed fields, and the `ChartSeries` of the income table. Any other input raises. |
| `Presentation.ChartLeavesIncomeTableUnchanged` | app1.py:103-128 | On one payload, the income table holds the payload's own values or "N/A". The chart beside it holds the same labels, with non-numbers as 0, so the coercion does not alter the table. |
| `Recommendations.Count` | app1.py:143-145 | A term `rec[field]` of a sum is defined exactly when the record is a dict holding the field as an int or a bool. It is then that int, or 1 for true and 0 for false. |
| `Recommendations.SumField` | app1.py:143-145 | A sum raises exactly when some record's term is missing or is not an int or a bool. |
| `Recommendations.Tally` | app1.py:143-145 | The totals exist exactly when every record has int buy, hold and sell counts. An empty trend gives (0, 0, 0). |
| `Recommendations.SumFieldAppend` | app1.py:143-145 | The sum over two runs of records, one after the other, is the sum of their two sums. |
| `Recommendations.SumFieldRemove` | app1.py:143-145 | Taking one record out of a sum leaves that record's term to be added back. |
| `Recommendations.SumFieldPermutation` | app1.py:143-145 | A sum is the same for any reordering of the records. |
| `Recommendations.TallyPermutation` | app1.py:143-145 | Permuting the trend records leaves all three totals unchanged. |
| `Recommendations.TallyAppend` | app1.py:143-145 | Each total over two runs of records is the field-wise sum of the two runs' totals. |
| `Recommendations.RecommendationsSection` | app1.py:138-145 | Shows an error exactly for an error marker. For a list without the string "error", it shows the totals when every record is well formed and raises otherwise. A non-empty dict without "error" raises, because iterating it yields key strings, and so does a scalar. |
| `Insights.Insight` | app1.py:159-166 | "Strong Buy" when buy is the strict maximum, "Hold" when hold is, and "Sell" when sell is; each of these holds in both directions. "No clear recommendation" exactly when there is no strict maximum. |
| `Insights.LabelTextIsInjective` | app1.py:159-166 | The four messages ("Strong Buy", "Hold", "Sell", "No clear recommendation") are distinct, so the message shown names the label. |
| `Insights.StrictMaxIsUnique` | app1.py:159-166 | At most one count is a strict maximum, so the three conditions exclude each other. |
| `Insights.TieForMaximumIsNoClearRecommendation` | app1.py:165-166 | Any tie for the largest count gives "No clear recommendation". |
| `Insights.InsightExamples` | app1.py:159-166 | (10,3,2) gives Strong Buy, (2,9,4) Hold and (1,2,7) Sell. (3,3,3), (5,5,1) and (0,0,0) give No clear recommendation. |
| `Insights.InsightSectionAsWritten` | app1.py:157-166 | The label of the totals when the Recommendations tab showed them. After that tab showed an error, it raises NameError. |
| `Insights.InsightSection` | app1.py:157-166 | Like the script when totals exist. After a recommendations error it shows "No clear recommendation", the label of (0, 0, 0). |
| `MetricsDownload.ExportFileName` | app1.py:177 | The file name is the ticker followed by "_metrics.csv". |
| `MetricsDownload.ExportRows` | app1.py:170-173 | One row per metrics entry, in the mapping's order, with that entry's key and value. |
| `MetricsDownload.ExportRowsListTheDict` | app1.py:170-173 | For a dict, the rows name every key exactly once, and each row's value is the one the dict maps its key to. |
| `MetricsDownload.Export` | app1.py:169-177 | A download exists exactly when the option is set and the metrics result is a dict without "error". It then holds the header (Metric, Value), the rows of every metric and the file name. |
| `Dashboard.GenerateAsWritten` | app1.py:60-179 | A blank ticker gets the prompt. Otherwise the page equals the one `Generate` renders, except after a Recommendations tab that showed an error: there the Insights tab raises and no download is offered. |
| `Dashboard.Generate` | app1.py:60-179 | A blank ticker gets the prompt. Otherwise each tab, up to the first that raises, renders the adapter result for the normalised ticker, and every tab after one that raised is not reached. The insight is the label of the totals, or "No clear recommendation" after a Recommendations error. The download is the `Export` of the metrics result. |
| `Dashboard.BlankTickerFetchesNothing` | app1.py:61-62 | For an all-whitespace input the response is the prompt, whatever the provider would answer. |
| `Dashboard.OnlyTheNormalizedTickerIsFetched` | app1.py:65-68 | Two providers that answer alike for the normalised ticker give the same response. |
| `Dashboard.RecommendationsFailureIsIsolated` | app1.py:137-179 | A Recommendations tab that shows an error leaves the Profile and Metrics tabs and the download as they are. The Insights tab then shows "No clear recommendation". |
| `Dashboard.UnboundTotalsHaltPage` | app1.py:143-179 | As written, the same error makes the Insights tab raise and the download is never offered. |
| `Dashboard.RecommendationsErrorCases` | app1.py:40-47 | A failed recommendations call and an empty trend both make the Recommendations tab show an error, with the exception's text or "No recommendations available". |

## Findings

| source | as written | input that shows it | evidently intended | confidence | as-written member | corrected member |
|---|---|---|---|---|---|---|
| app1.py:143-166 | `buy`, `hold` and `sell` are bound only when the Recommendations tab got records. The Insights tab reads them anyway, so after a failed or empty recommendations fetch it raises NameError and the script stops before the download is offered. | Any non-blank ticker whose recommendations call raises (a timeout, say) or returns an empty list, while the profile and metrics render normally. | The Insights tab shows a label, with the totals taken as (0, 0, 0), giving "No clear recommendation". The download is offered as usual. | high, not executed | `Insights.InsightSectionAsWritten`, `Dashboard.UnboundTotalsHaltPage` | `Insights.InsightSection`, `Dashboard.RecommendationsFailureIsIsolated` |

## Left out

- Streamlit layout, tabs, sidebar widgets, the spinner, `st.error`, `st.stop`, images and markdown: UI rendering only. Each tab's outcome is kept as a `Section` value.
- The Finnhub client and its three network calls: each becomes an `Outcome` input, supplied through `Dashboard.Client`.
- Loading `FINNHUB_API_KEY` with `dotenv` and `os.getenv`, and stopping when it is missing (app1.py:9-16): environment configuration at start-up.
- The chart-type selector and the Plotly figure (app1.py:56, 129-135, 148-154): rendering through a library outside this model. The selector always yields one of its three options, so the income series is always built.
- The `:,.2f` text of market cap and shares outstanding: floating-point formatting. `Presentation.Cell.TwoDecimals` marks the value to be formatted, with a missing value defaulting to 0 before formatting. A non-number there makes the tab raise.
- The pandas `DataFrame` and `to_csv` encoding of the download: quoting, escaping and value text are not modelled. Only the header and the row list are.
- Floats are exact reals (`JFloat`). IEEE rounding, NaN and infinities are not modelled.
- `Ticker.Upper`: maps only the ASCII letters. Python's `str.upper()` also maps non-ASCII letters, and some of those change the length (such as "ß" to "SS").
- `Recommendations.Tally`: a record count given as a JSON float is treated as malformed, so the tab raises. Python would add it as a float. The provider sends integer counts.
- A decoded object that repeats a key: a Python dict cannot hold one, so such a `JObj` stands for no Python value and the model promises nothing about it (lookups take the first entry, the export lists every entry).
- The exact text of a Python exception is modelled only where an adapter puts it into an error marker. The message of an exception that halts the script is not kept.
