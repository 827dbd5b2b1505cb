# Trading-client bridge: C scanner poll, boundary records and chart UI state machine

This project models, in Dafny, the sequential logic that sits between the
IBKR trading client (`IbkrClient`) and its consumers:

- the bounded-copy C surface in `TwsAdapter/ibkr_c_api.cpp`. This covers the
  handle guards of `ibkr_create`/`ibkr_destroy`, the `ibkr_disconnect` and
  `ibkr_start_scanner` command encoders, and `ibkr_poll_scanner`.
  `ibkr_poll_scanner` drains one batch of events and skips to the first
  scanner result. It copies at most `max_items` rows into a caller-owned
  array, filling each text field with `strncpy` and then forcing a NUL at
  the end. It returns the row count, or -1;
- the boundary record layout in `TwsAdapter/ibkr_c_api.h`: the
  `IBKR_EVENT_*` kind tags, the payload records with their fixed-width text
  fields and owned sub-arrays, and what the header comments promise of
  `ibkr_poll_event` and `ibkr_free_event`;
- the chart application's event handling in `chart_glfw/App.cpp`:
  `handleEvent`, `update`, `requestChart`, `startScanner`, the command part
  of `stop`, and the two symbol-selection callbacks.

The client is modelled as an object with two pieces of state. One is a
command log: `pushCommand` appends to it. The other is an event queue:
`consumeEvents` returns the queued events in order and empties it.

Files:

- `Wrappers.dfy`: `Option`.
- `Trading.dfy`: the `Command` and `Event` datatypes. Doubles are opaque
  64-bit patterns that are only copied.
- `Client.dfy`: the client as a command log plus an event queue.
- `CText.dfy`: C strings and `strncpy` as section 7.24.2.4 of the C11
  standard defines it.
- `CBoundary.dfy`: the header's layout and the poll/free contracts.
- `CApi.dfy`: the C surface. `IbkrPollScanner` is an in-place array update,
  proved against the specification functions `FirstScanner`, `PolledCount`
  and `PolledRows`.
- `ChartApp.dfy`: the `App` class, proved against the pure functions
  `HandleStep` and `Drain`. Lemmas describe `Drain` independently, reading
  the batch from its end.

Two behaviours of the code that a reader might expect to be otherwise are
modelled as written:

- `ibkr_destroy` sends no `Disconnect`. It only joins and deletes, so
  `IbkrDestroy` leaves the client's command log unchanged.
- `ibkr_start_scanner` takes no location code, unlike its header
  prototype. It always uses `"STK.US"`.

## Model

| member | source | states |
|---|---|---|
| `Client.IbkrClient.PushCommand` | TwsAdapter/ibkr_c_api.cpp:45 | Appends exactly the given command to the log and leaves the event queue alone. |
| `Client.IbkrClient.ConsumeEvents` | chart_glfw/App.cpp:78 | Returns every queued event in FIFO order and leaves the queue empty. The command log is unchanged. |
| `CText.CString` | TwsAdapter/ibkr_c_api.cpp:72-77 | The text `c_str()` exposes to `strncpy` is the prefix of the string before its first NUL. It has no NUL, and a NUL follows it whenever it is shorter than the string. |
| `CText.StrncpyShape` | TwsAdapter/ibkr_c_api.cpp:72-77 | `strncpy(dst, src, n)` leaves the source text truncated to `n` characters, then NUL padding up to byte `n`, and does not touch the bytes from `n` on. |
| `CText.FixedCopyShape` | TwsAdapter/ibkr_c_api.cpp:72-80 | After `strncpy` of `size-1` bytes and the forced terminator, the field is the source truncated to `min(len, size-1)` characters, then zero padding. Its size is kept and byte `size-1` is NUL. |
| `CText.FixedCopyReadBack` | TwsAdapter/ibkr_c_api.cpp:72-80 | Read back as a C string, the field gives exactly the source when it is shorter than the buffer, and its first `size-1` characters otherwise. |
| `CBoundary.Tag` | TwsAdapter/ibkr_c_api.h:16-20 | Each kind's tag is one of the constants 0 to 4. |
| `CBoundary.TagRoundTrip` | TwsAdapter/ibkr_c_api.h:16-20 | Decoding a tag gives its kind back, so the five tags are pairwise distinct. Exactly the values 0 to 4 are tags. |
| `CBoundary.FixedCopyFillsField` | TwsAdapter/ibkr_c_api.h:23-75 | Filling a `char[width]` field the bridge's way always gives a NUL-terminated field of that width. It reads back as the source truncated to `width-1`. The widths are constants: date 32, symbol 32, secType 16, currency 8, key/value 64, accountName 32, account 32. |
| `CBoundary.TagDeterminesPayload` | TwsAdapter/ibkr_c_api.h:77-81 | In a consistent record the tag determines which payload `data` holds, in both directions for every kind. A None record owns nothing; every other record owns its payload struct, and historical data and scanner results also own `candles`/`items`. Consistency also requires that `candles`/`items` are exactly `candleCount`/`itemCount` long. |
| `CBoundary.EventSurface.PollEvent` | TwsAdapter/ibkr_c_api.h:105-107 | Returns 1 if and only if a record was written to `*out`, which is the oldest ready one. Returns 0 if and only if nothing is ready. A delivered record is consistent, its text fields inside `candles`/`items` have their declared widths (date 32; symbol 32, secType 16, currency 8), and its memory becomes outstanding without having been outstanding before. |
| `CBoundary.EventSurface.FreeEvent` | TwsAdapter/ibkr_c_api.h:108-109 | Releases exactly the heap memory the record owns: the payload struct `data` points at, plus `candles` for historical data and `items` for a scanner result. That memory must still be outstanding, so a record is released at most once. |
| `CBoundary.NoDoubleRelease` | TwsAdapter/ibkr_c_api.h:108-109 | Once a record other than None has been released, its memory is no longer outstanding, so releasing it again is refused. |
| `CApi.IbkrCreate` | TwsAdapter/ibkr_c_api.cpp:17-24 | The new handle owns a fresh client. The client's host is `"127.0.0.1"` when `host` is null and `host` otherwise, and it keeps the given port and client id. |
| `CApi.IbkrDestroy` | TwsAdapter/ibkr_c_api.cpp:26-33 | A null handle is ignored. Otherwise the handle is dead afterwards and the client's command log is not touched. |
| `CApi.IbkrDisconnect` | TwsAdapter/ibkr_c_api.cpp:41-46 | A null handle is ignored. Otherwise exactly one `Disconnect` is appended. |
| `CApi.IbkrStartScanner` | TwsAdapter/ibkr_c_api.cpp:48-58 | A null handle or null scan code is ignored. Otherwise exactly one `StartScanner` is appended, with the given reqId, scan code and price and location `"STK.US"`. |
| `CApi.IbkrPollScanner` | TwsAdapter/ibkr_c_api.cpp:60-88 | On misuse (null handle, null output, `max_items <= 0`) it returns -1, writes nothing and drains nothing. Otherwise it drains the whole batch and returns `PolledCount` of the batch's first scanner result. The array becomes `PolledRows`: only slots below the count change. |
| `CApi.FirstScannerIsFirst` | TwsAdapter/ibkr_c_api.cpp:65-87 | The reported result is a scanner event preceded only by non-scanner events. In both directions, there is none exactly when the batch holds no scanner result. |
| `CApi.LaterEventsIgnored` | TwsAdapter/ibkr_c_api.cpp:65-83 | Events after the first scanner result of a batch do not affect the poll. |
| `CApi.PolledCountMeaning` | TwsAdapter/ibkr_c_api.cpp:66-87 | A well-formed poll gives -1 if and only if there is no scanner result. Otherwise it gives `min(max_items, rows)`, and an empty result gives 0. |
| `CApi.PolledRowAt` | TwsAdapter/ibkr_c_api.cpp:69-82 | Row `i` below the count gets the rank of source item `i`. Each of its text fields is the truncated source plus NUL padding, with NUL at `size-1` and the buffer sizes kept. Every other row is unchanged. |
| `CApi.PolledRowReadBack` | TwsAdapter/ibkr_c_api.cpp:72-80 | Read back as C strings, the fields of copied row `i` are the texts of source item `i`, each truncated to its buffer size minus one. |
| `ChartApp.App.constructor` | chart_glfw/App.cpp:8-11 | Starts with no charts, no scanner result, the scanner reqId at 0, and no chart requests issued. The first chart reqId is a parameter. |
| `ChartApp.App.Stop` | chart_glfw/App.cpp:59-63 | Appends exactly one `Disconnect`. |
| `ChartApp.App.StartScanner` | chart_glfw/App.cpp:88-100 | Appends exactly one `StartScanner` with the given reqId, scan code and price and location `"STK.US"`. |
| `ChartApp.App.HandleEvent` | chart_glfw/App.cpp:102-129 | A scanner result becomes `currentScannerResult` and exactly one `CancelScanner` with its reqId is sent. Historical data replaces the chart of its symbol, makes that symbol active and sends nothing. An account event changes nothing. No chart key is ever removed. |
| `ChartApp.App.Update` | chart_glfw/App.cpp:76-86 | Drains the queue and ends in the state, and with the commands, of `Drain` over the drained batch in FIFO order. |
| `ChartApp.App.RequestChart` | chart_glfw/App.cpp:131-147 | Appends one `RequestHistoricalData` with reqId equal to the old counter, then increments the counter. The defaults are `""`, `"1 Y"`, `"1 day"`, `"TRADES"` and useRTH 1. The reqId is added to the issued list. |
| `ChartApp.App.OnSymbolEntered` | chart_glfw/App.cpp:36-44 | For a symbol with a stored chart, only `activeSymbol` changes and nothing is sent. Otherwise the data is unchanged and exactly one chart request is issued. |
| `ChartApp.App.OnScannerRowClicked` | chart_glfw/App.cpp:46-55 | Same decision as for a typed symbol. |
| `ChartApp.DrainAppend` | chart_glfw/App.cpp:78-84 | Handling two consecutive batches is the same as handling their concatenation, in state and in commands sent. |
| `ChartApp.DrainSnoc` | chart_glfw/App.cpp:80-84 | Handling a batch and then one more event is the same as handling the extended batch. |
| `ChartApp.DrainSent` | chart_glfw/App.cpp:107-113 | The commands sent for a batch are exactly one `CancelScanner` per scanner result, with the same reqId and in the same order. |
| `ChartApp.DrainKeys` | chart_glfw/App.cpp:115-123 | After a batch the chart keys are the old keys plus the symbols of its historical-data events, so keys only grow. |
| `ChartApp.DrainChartAt` | chart_glfw/App.cpp:115-123 | Each symbol's chart is the one from the last historical-data event for it in the batch, overwriting earlier ones. It is unchanged when the batch has none. |
| `ChartApp.DrainActiveSymbol` | chart_glfw/App.cpp:115-123 | The active symbol is that of the batch's last historical-data event, or unchanged when there is none. |
| `ChartApp.DrainScannerResult` | chart_glfw/App.cpp:107-108 | The stored scanner result is the batch's last one, or unchanged when there is none. |
| `ChartApp.AscendingIsStrict` | chart_glfw/App.cpp:134 | A sequence that increases at every step increases strictly overall. |
| `ChartApp.IssuedReqIdsDistinct` | chart_glfw/App.cpp:134 | All chart-request reqIds an application has issued are pairwise distinct, increase with time, and lie below the counter. |

## Left out

- Threads: the worker thread, `processLoop` and every `join` are not modelled, in `ibkr_create`/`ibkr_destroy` and in `App::init`/`App::stop`. The model is sequential, so events do not arrive while a method runs.
- Sleeps: `ibkr_connect` only sleeps for one second. It has no other effect and is not modelled, and neither is the sleep in `App::init`.
- Client internals: `IbkrClient`'s connection, wire protocol and locking are not part of this model. Only its command log and event queue are.
- Heap memory: `new`/`delete` of the context and client are not modelled, beyond the ghost `alive` flag on a handle and the ghost `live` set of outstanding arrays.
- Header prototypes without a body: `ibkr_start`, `ibkr_request_historical_data`, `ibkr_cancel_scanner` and `ibkr_request_account_data` are not modelled. `ibkr_poll_event` and `ibkr_free_event` get only the header's comments as their contract. The translation of events into records, with its fan-out, is not part of this model.
- `CScannerItem`'s definition is not part of this model. Its three buffer sizes are a parameter (`ItemLayout`), each at least 1. Only the fields the poll writes are modelled: rank, symbol, secType and currency.
- Floating point: prices, OHLC values and positions are opaque bit patterns. They are only copied.
- UI: rendering, GLFW, the window user pointer and all `printf` output are not modelled, and neither are `chart_glfw/main.c`, `chart_glfw/src/main.cpp` and `c45k/main.c`.
- `App::init`: its initial `startScanner(1, "TOP_PERC_GAIN")` call is not modelled, because the default `priceAbove` lives in `App.h`, which is not part of this model. The callbacks it installs are modelled as `OnSymbolEntered` and `OnScannerRowClicked`. The client it creates is passed to the `App` constructor instead.
- `App::~App` calls `stop`, which is modelled as `App.Stop`.
- ChartApp.App.RequestChart: it does not model 32-bit overflow of `m_nextReqId`, because the counter is an unbounded integer here.
- CApi.IbkrPollScanner: `max_items` is taken as the array's capacity (the array must hold at least `max_items` slots), although C is only undefined when the poll actually writes past the end, e.g. 5 slots, `max_items` 10 and a 3-row result would be fine.
- `App.h` is not part of this model. The initial value of `m_nextReqId` it declares is the `firstReqId` parameter of the `App` constructor, and the type of `DataManager::currentScannerResult` is not shown: it is modelled as an `Option` whose `None` stands for the default-constructed value before any scanner result arrives.
- C string arguments (`host`, `scanCode`) are modelled as their contents, which contain no NUL; that is a precondition of `IbkrCreate` and `IbkrStartScanner`.
