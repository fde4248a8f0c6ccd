# BRC-20 TRAC history fetcher, modelled in Dafny

The dashboard fetches the BRC-20 TRAC transaction history of one type
(`buy` or `sell`) from an indexer endpoint. `get_brc20_history` does this in
two steps:

1. A pagination loop. It requests pages of 100 records at offsets 0, 100,
   200, ... and appends each non-empty page to the accumulated list. It stops
   at the first successful empty page. It also stops at the first non-200
   response, where it keeps what it has accumulated and raises nothing.
2. A filter. It keeps the accumulated records whose `blocktime` is at or
   after the start date, in order.

`brc20_history.dfy` (module `Brc20History`) models both steps:

- The endpoint is a script. `script[k]` is the response to the k-th request:
  a status code and a body. The body is either the decoded `data.detail`
  list or `Unparseable`.
- `FetchAll` is the loop, written as a `while true` loop with `break`s, like
  the source. It returns the accumulated records, the reason it stopped and
  the log of requests it issued (`type`, `start`, `limit`). It is proved
  against `FirstEnd`, the index of the first response that ends the loop,
  and `Flatten`, the in-order concatenation of pages.
- `KeepSince` is the filter. `GetHistory` is the whole routine.
- `Serve` and `DatasetScript` describe a stable dataset's endpoint, which
  serves `dataset[start..start+limit]`. The lemmas about it state
  completeness and the partial result after a failure.

Two behaviours of the source worth noting:

- An empty accumulation raises. `pd.DataFrame([])` has no `blocktime`
  column, so the column lookup at line 39 raises `KeyError`. `GetHistory`
  returns `Failure(NoBlocktimeColumn)` for this case. That includes a first
  response with a non-200 status, since nothing was accumulated then.
- The page size is the constant `limit = 100` (line 13).

Termination is a modelling choice. The source's `while True` loop does not
end if the endpoint never returns an empty page or an error. `FetchAll` and
`GetHistory` therefore require `HasEnd(script)`: some response in the
script ends the loop. Under that condition they model every run of the
source in which each request gets a response and some response ends the
loop. No extra "gave up" outcome is invented.

## Model

| member | source | states |
|---|---|---|
| `Brc20History.FirstEnd` | streamlit_app.py:19-36 | the index of the first response after which no request is issued: it ends the loop (non-200, undecodable, or an empty page) and no earlier response does |
| `Brc20History.FetchAll` | streamlit_app.py:11-36 | exactly `FirstEnd + 1` requests are issued; the k-th has `start == k * 100` and `limit == 100`, so offsets strictly increase; the accumulated records are the in-order concatenation of every page before the first ending response; the stop reason is an empty page, the non-200 status (keeping the partial list), or an undecodable body |
| `Brc20History.KeepSince` | streamlit_app.py:38-40 | every kept record has `blocktime >= startDate`; the result is a subsequence of the input (order kept, records unchanged); for every passing record, it keeps exactly as many occurrences as the input has |
| `Brc20History.GetHistory` | streamlit_app.py:10-40 | the same requests as `FetchAll`; an undecodable body raises `MalformedBody`; an empty accumulation raises `NoBlocktimeColumn`; otherwise the result is the filter applied to the accumulated records, and every returned record is at or after `startDate` |
| `Brc20History.FlattenGrows` | streamlit_app.py:30-33 | the accumulated list only grows: the records held after `i` pages are a prefix of the records held after any later page |
| `Brc20History.FlattenDataset` | streamlit_app.py:30-33 | against a stable dataset, the first `n` pages concatenate to the first `min(100 n, size)` records |
| `Brc20History.DatasetComplete` | streamlit_app.py:19-33 | against a stable dataset of `m` records the loop stops after `ceil(m / 100) + 1` requests (the last one gets an empty page) and has accumulated the whole dataset in order |
| `Brc20History.DatasetFailure` | streamlit_app.py:28-36 | a non-200 response to request `j` of a stable dataset ends the loop at `j`, whatever follows it; the stop reason carries that status and the kept records are the first `j` pages |
| `Brc20History.Example237` | streamlit_app.py:19-33 | pages of 100, 100 and 37 records, then an empty page: four requests, and all 237 records accumulated |
| `Brc20History.KeepSinceNarrows` | streamlit_app.py:40 | filtering by a later start date after an earlier one equals filtering by the later one alone; with equal dates this makes the filter idempotent |

## Left out

- The HTTP request, the base URL, the bearer header and the query dictionary (lines 7, 15-26) are network I/O. They are replaced by the scripted responses; each request is recorded as its `type`, `start` and `limit` values.
- The JSON decoding at line 29 is a library call. A body is modelled as either the decoded `data.detail` list or `Unparseable`, which raises. A `detail` value that is present but `None` or not a list is not modelled.
- The error message printed at line 35 is I/O. Only its status code is kept, in `HttpError`.
- pandas frame construction and `pd.to_datetime` (lines 38-39) are library internals. The conversion is treated as the identity on integer epoch seconds, so its out-of-range failure at line 39, for a `blocktime` too far from the present to be a pandas timestamp, is not modelled. The frame's row index labels and column types are not modelled; the result is a sequence of records.
- A record without a `blocktime` field is not modelled: every `Record` has an integer `blocktime`. In the source, pandas fills such a record's `blocktime` with a missing value and the filter drops it. When no accumulated record has the field, the frame has no `blocktime` column and line 39 raises `KeyError`, as for an empty accumulation.
- The start date is computed from the clock in `main` (line 54), and the conversion gives naive UTC times while `datetime.now()` gives local time. Both are outside the routine: `startDate` is a parameter in the same units as `blocktime`.
- `main()` and everything Streamlit (lines 43-68), including `st.secrets`, is UI and configuration.
- An exception raised by `requests.get` itself (line 26), such as a connection or name-resolution error, is not modelled. In the source it propagates out of `get_brc20_history` with no partial result; every scripted `Response` carries a status.
- The request at line 26 sets no timeout, so a single request can block forever. The model assumes every request gets a response.
- `pd.DataFrame(tokens)` (line 38) keeps every JSON field of each record as a column. `Record` keeps only `from`, `to`, `amount` and `blocktime`; other fields are dropped, and so is the missing-value filling for a record that lacks `from`, `to` or `amount`.
- Non-termination of `while True` against an endpoint that never ends the loop cannot be a verified method. `HasEnd(script)` restricts the model to runs that terminate.
