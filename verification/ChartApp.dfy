/**
 * The chart application's event handling: a data manager holding one chart
 * per symbol, the active symbol and the latest scanner result, fed by the
 * events the trading client produces and answering some of them with
 * commands.
 */
module ChartApp {
  import opened Wrappers
  import opened Trading
  import opened Client

  // Fixed parameters of the commands the application builds.
  const ScannerLocation: string := "STK.US"
  const ChartEndDateTime: string := ""
  const ChartDuration: string := "1 Y"
  const ChartBarSize: string := "1 day"
  const ChartWhatToShow: string := "TRADES"
  const ChartUseRTH: int := 1

  datatype ChartData = ChartData(symbol: string, candles: seq<Candle>, reqId: int)

  /** `currentScannerResult` is None until a scanner result has arrived. */
  datatype DataManager = DataManager(charts: map<string, ChartData>, activeSymbol: string,
                                     currentScannerResult: Option<ScannerResult>)

  /** The data manager after some events, with the commands sent in reply, oldest first. */
  datatype Reaction = Reaction(dm: DataManager, sent: seq<Command>)

  /** The chart stored for a historical-data event. */
  function ChartOf(h: HistoricalDataEvent): ChartData
  {
    ChartData(h.symbol, h.candles, h.reqId)
  }

  /** The effect of handling one event. */
  function HandleStep(dm: DataManager, e: Event): Reaction
  {
    match e
    case ScannerEvent(r) => Reaction(dm.(currentScannerResult := Some(r)), [CancelScanner(r.reqId)])
    case HistoricalEvent(h) => Reaction(dm.(charts := dm.charts[h.symbol := ChartOf(h)], activeSymbol := h.symbol), [])
    case AccountEvent(_) => Reaction(dm, [])
  }

  /** The effect of handling a drained batch front to back. */
  function Drain(dm: DataManager, batch: seq<Event>): Reaction
    decreases |batch|
  {
    if batch == [] then Reaction(dm, [])
    else
      var first := HandleStep(dm, batch[0]);
      var rest := Drain(first.dm, batch[1..]);
      Reaction(rest.dm, first.sent + rest.sent)
  }

  // ---- Reference descriptions of a drained batch, read from its end ----

  /** The last scanner result of the batch, if any. */
  function LastScanner(b: seq<Event>): Option<ScannerResult>
  {
    if b == [] then None
    else if b[|b| - 1].ScannerEvent? then Some(b[|b| - 1].result)
    else LastScanner(b[..|b| - 1])
  }

  /** The last historical-data event of the batch, if any. */
  function LastHistorical(b: seq<Event>): Option<HistoricalDataEvent>
  {
    if b == [] then None
    else if b[|b| - 1].HistoricalEvent? then Some(b[|b| - 1].hist)
    else LastHistorical(b[..|b| - 1])
  }

  /** The last historical-data event of the batch for `symbol`, if any. */
  function LastChartFor(b: seq<Event>, symbol: string): Option<HistoricalDataEvent>
  {
    if b == [] then None
    else if b[|b| - 1].HistoricalEvent? && b[|b| - 1].hist.symbol == symbol then Some(b[|b| - 1].hist)
    else LastChartFor(b[..|b| - 1], symbol)
  }

  /** The symbols of the batch's historical-data events. */
  function HistoricalSymbols(b: seq<Event>): set<string>
  {
    set i | 0 <= i < |b| && b[i].HistoricalEvent? :: b[i].hist.symbol
  }

  /** One CancelScanner per scanner result of the batch, with its reqId, in batch order. */
  function CancelsFor(b: seq<Event>): seq<Command>
  {
    if b == [] then []
    else (if b[0].ScannerEvent? then [CancelScanner(b[0].result.reqId)] else []) + CancelsFor(b[1..])
  }

  /** Handling two consecutive batches is handling their concatenation. */
  lemma {:induction false} DrainAppend(dm: DataManager, a: seq<Event>, b: seq<Event>)
    ensures var first := Drain(dm, a);
            var second := Drain(first.dm, b);
            Drain(dm, a + b) == Reaction(second.dm, first.sent + second.sent)
    decreases |a|
  {
    if a == [] {
      assert a + b == b;
    } else {
      assert (a + b)[0] == a[0] && (a + b)[1..] == a[1..] + b;
      DrainAppend(HandleStep(dm, a[0]).dm, a[1..], b);
    }
  }

  /** Handling a batch and then one more event. */
  lemma DrainSnoc(dm: DataManager, b: seq<Event>, e: Event)
    ensures var before := Drain(dm, b);
            var step := HandleStep(before.dm, e);
            Drain(dm, b + [e]) == Reaction(step.dm, before.sent + step.sent)
  {
    DrainAppend(dm, b, [e]);
  }

  /** The replies to a batch are exactly one CancelScanner per scanner result, same reqId, same order. */
  lemma {:induction false} DrainSent(dm: DataManager, b: seq<Event>)
    ensures Drain(dm, b).sent == CancelsFor(b)
    decreases |b|
  {
    if b != [] {
      DrainSent(HandleStep(dm, b[0]).dm, b[1..]);
    }
  }

  /** Charts are only added or overwritten: the keys after a batch are the old keys plus the batch's historical symbols. */
  lemma {:induction false} DrainKeys(dm: DataManager, b: seq<Event>)
    ensures Drain(dm, b).dm.charts.Keys == dm.charts.Keys + HistoricalSymbols(b)
    decreases |b|
  {
    if b != [] {
      var b' := b[..|b| - 1];
      var e := b[|b| - 1];
      assert b == b' + [e];
      DrainSnoc(dm, b', e);
      DrainKeys(dm, b');
      if e.HistoricalEvent? {
        assert HistoricalSymbols(b) == HistoricalSymbols(b') + {e.hist.symbol} by {
          forall s | s in HistoricalSymbols(b) ensures s in HistoricalSymbols(b') + {e.hist.symbol} {
            var i :| 0 <= i < |b| && b[i].HistoricalEvent? && b[i].hist.symbol == s;
            if i < |b'| { assert b'[i] == b[i]; }
          }
          forall s | s in HistoricalSymbols(b') ensures s in HistoricalSymbols(b) {
            var i :| 0 <= i < |b'| && b'[i].HistoricalEvent? && b'[i].hist.symbol == s;
            assert b[i] == b'[i];
          }
          assert b[|b| - 1].HistoricalEvent?;
        }
      } else {
        assert HistoricalSymbols(b) == HistoricalSymbols(b') by {
          forall s | s in HistoricalSymbols(b) ensures s in HistoricalSymbols(b') {
            var i :| 0 <= i < |b| && b[i].HistoricalEvent? && b[i].hist.symbol == s;
            assert i < |b'| && b'[i] == b[i];
          }
          forall s | s in HistoricalSymbols(b') ensures s in HistoricalSymbols(b) {
            var i :| 0 <= i < |b'| && b'[i].HistoricalEvent? && b'[i].hist.symbol == s;
            assert b[i] == b'[i];
          }
        }
      }
    }
  }

  /** After a batch, each chart is the one of the last historical-data event for its symbol, or the old chart when the batch had none. */
  lemma {:induction false} DrainChartAt(dm: DataManager, b: seq<Event>, symbol: string)
    ensures var charts := Drain(dm, b).dm.charts;
            match LastChartFor(b, symbol)
            case Some(h) => symbol in charts && charts[symbol] == ChartOf(h)
            case None => (symbol in charts <==> symbol in dm.charts)
                         && (symbol in dm.charts ==> charts[symbol] == dm.charts[symbol])
    decreases |b|
  {
    if b != [] {
      var b' := b[..|b| - 1];
      assert b == b' + [b[|b| - 1]];
      DrainSnoc(dm, b', b[|b| - 1]);
      DrainChartAt(dm, b', symbol);
    }
  }

  /** After a batch, the active symbol is that of the last historical-data event, or unchanged when there was none. */
  lemma {:induction false} DrainActiveSymbol(dm: DataManager, b: seq<Event>)
    ensures Drain(dm, b).dm.activeSymbol ==
              match LastHistorical(b) case Some(h) => h.symbol case None => dm.activeSymbol
    decreases |b|
  {
    if b != [] {
      var b' := b[..|b| - 1];
      assert b == b' + [b[|b| - 1]];
      DrainSnoc(dm, b', b[|b| - 1]);
      DrainActiveSymbol(dm, b');
    }
  }

  /** After a batch, the stored scanner result is its last one, or unchanged when there was none. */
  lemma {:induction false} DrainScannerResult(dm: DataManager, b: seq<Event>)
    ensures Drain(dm, b).dm.currentScannerResult ==
              if LastScanner(b).Some? then LastScanner(b) else dm.currentScannerResult
    decreases |b|
  {
    if b != [] {
      var b' := b[..|b| - 1];
      assert b == b' + [b[|b| - 1]];
      DrainSnoc(dm, b', b[|b| - 1]);
      DrainScannerResult(dm, b');
    }
  }

  /** Each step strictly increases. */
  predicate Ascending(s: seq<int>)
  {
    forall i | 0 < i < |s| :: s[i - 1] < s[i]
  }

  /** Strictly increasing steps make the whole sequence strictly increasing, so its elements are distinct. */
  lemma {:induction false} AscendingIsStrict(s: seq<int>)
    requires Ascending(s)
    ensures forall i, j | 0 <= i < j < |s| :: s[i] < s[j]
  {
    if |s| > 1 {
      var s' := s[..|s| - 1];
      assert Ascending(s') by {
        forall i | 0 < i < |s'| ensures s'[i - 1] < s'[i] { assert s'[i - 1] == s[i - 1] && s'[i] == s[i]; }
      }
      AscendingIsStrict(s');
      forall i, j | 0 <= i < j < |s| ensures s[i] < s[j] {
        if j < |s| - 1 {
          assert s[i] == s'[i] && s[j] == s'[j];
        } else if i < j - 1 {
          assert s[i] == s'[i] && s[j - 1] == s'[j - 1];
        }
      }
    }
  }

  class App {
    const client: IbkrClient
    var dataManager: DataManager
    var nextReqId: int
    var scannerReqId: int
    /** The reqIds handed to chart requests so far, in order. */
    ghost var issued: seq<int>

    /** Chart reqIds were issued in increasing order and all lie below the counter. */
    ghost predicate Valid()
      reads this
    {
      Ascending(issued) && (issued != [] ==> issued[|issued| - 1] < nextReqId)
    }

    constructor (client: IbkrClient, firstReqId: int)
      ensures Valid() && this.client == client
      ensures dataManager == DataManager(map[], "", None)
      ensures nextReqId == firstReqId && scannerReqId == 0 && issued == []
    {
      this.client := client;
      dataManager := DataManager(map[], "", None);
      nextReqId := firstReqId;
      scannerReqId := 0;
      issued := [];
    }

    /** Sends exactly one Disconnect. */
    method Stop()
      modifies client
      ensures client.commands == old(client.commands) + [Disconnect]
      ensures client.events == old(client.events)
    {
      client.PushCommand(Disconnect);
    }

    /** Sends exactly one StartScanner for the US stock location. */
    method StartScanner(reqId: int, scanCode: string, priceAbove: Double)
      modifies client
      ensures client.commands == old(client.commands) + [Command.StartScanner(reqId, scanCode, ScannerLocation, priceAbove)]
      ensures client.events == old(client.events)
    {
      var command := Command.StartScanner(reqId, scanCode, ScannerLocation, priceAbove);
      client.PushCommand(command);
    }

    /**
     * A scanner result is stored and answered with a CancelScanner for its
     * reqId; historical data is stored as the chart of its symbol, replacing
     * any earlier one, and makes that symbol active; anything else is ignored.
     */
    method HandleEvent(e: Event)
      requires Valid()
      modifies this, client
      ensures Valid() && nextReqId == old(nextReqId) && scannerReqId == old(scannerReqId) && issued == old(issued)
      ensures client.events == old(client.events)
      ensures old(dataManager).charts.Keys <= dataManager.charts.Keys
      ensures e.ScannerEvent? ==>
                && dataManager == old(dataManager).(currentScannerResult := Some(e.result))
                && client.commands == old(client.commands) + [CancelScanner(e.result.reqId)]
      ensures e.HistoricalEvent? ==>
                && dataManager.charts == old(dataManager).charts[e.hist.symbol := ChartOf(e.hist)]
                && dataManager.activeSymbol == e.hist.symbol
                && dataManager.currentScannerResult == old(dataManager).currentScannerResult
                && client.commands == old(client.commands)
      ensures e.AccountEvent? ==> dataManager == old(dataManager) && client.commands == old(client.commands)
      ensures dataManager == HandleStep(old(dataManager), e).dm
      ensures client.commands == old(client.commands) + HandleStep(old(dataManager), e).sent
    {
      match e
      case ScannerEvent(result) =>
        dataManager := dataManager.(currentScannerResult := Some(result));
        client.PushCommand(CancelScanner(result.reqId));
      case HistoricalEvent(hist) =>
        var chartData := ChartData(hist.symbol, hist.candles, hist.reqId);
        dataManager := dataManager.(charts := dataManager.charts[hist.symbol := chartData]);
        dataManager := dataManager.(activeSymbol := hist.symbol);
      case AccountEvent(_) =>
    }

    /** Drains the client's events and handles them in FIFO order. */
    method Update()
      requires Valid()
      modifies this, client
      ensures Valid() && nextReqId == old(nextReqId) && scannerReqId == old(scannerReqId) && issued == old(issued)
      ensures client.events == []
      ensures dataManager == Drain(old(dataManager), old(client.events)).dm
      ensures client.commands == old(client.commands) + Drain(old(dataManager), old(client.events)).sent
    {
      var eventQueue := client.ConsumeEvents();
      while eventQueue != []
        invariant Valid() && nextReqId == old(nextReqId) && scannerReqId == old(scannerReqId) && issued == old(issued)
        invariant client.events == []
        invariant Drain(dataManager, eventQueue).dm == Drain(old(dataManager), old(client.events)).dm
        invariant client.commands + Drain(dataManager, eventQueue).sent
                  == old(client.commands) + Drain(old(dataManager), old(client.events)).sent
        decreases |eventQueue|
      {
        HandleEvent(eventQueue[0]);
        eventQueue := eventQueue[1..];
      }
    }

    /** Sends one daily-chart request numbered with the counter, then advances the counter. */
    method RequestChart(symbol: string)
      requires Valid()
      modifies this, client
      ensures Valid() && dataManager == old(dataManager) && scannerReqId == old(scannerReqId)
      ensures client.events == old(client.events)
      ensures client.commands == old(client.commands) + [RequestHistoricalData(old(nextReqId), symbol,
                ChartEndDateTime, ChartDuration, ChartBarSize, ChartWhatToShow, ChartUseRTH)]
      ensures nextReqId == old(nextReqId) + 1
      ensures issued == old(issued) + [old(nextReqId)]
    {
      var cmd := RequestHistoricalData(nextReqId, symbol, ChartEndDateTime, ChartDuration,
                                       ChartBarSize, ChartWhatToShow, ChartUseRTH);
      issued := issued + [nextReqId];
      nextReqId := nextReqId + 1;
      client.PushCommand(cmd);
    }

    /** A symbol typed in: switch to its chart when one is stored, otherwise request it. */
    method OnSymbolEntered(symbol: string)
      requires Valid()
      modifies this, client
      ensures Valid() && scannerReqId == old(scannerReqId) && client.events == old(client.events)
      ensures symbol in old(dataManager).charts ==>
                && dataManager == old(dataManager).(activeSymbol := symbol)
                && client.commands == old(client.commands)
                && nextReqId == old(nextReqId) && issued == old(issued)
      ensures symbol !in old(dataManager).charts ==>
                && dataManager == old(dataManager)
                && client.commands == old(client.commands) + [RequestHistoricalData(old(nextReqId), symbol,
                     ChartEndDateTime, ChartDuration, ChartBarSize, ChartWhatToShow, ChartUseRTH)]
                && nextReqId == old(nextReqId) + 1 && issued == old(issued) + [old(nextReqId)]
    {
      if symbol in dataManager.charts {
        dataManager := dataManager.(activeSymbol := symbol);
      } else {
        RequestChart(symbol);
      }
    }

    /** A scanner row clicked: the same decision as for a typed symbol. */
    method OnScannerRowClicked(symbol: string)
      requires Valid()
      modifies this, client
      ensures Valid() && scannerReqId == old(scannerReqId) && client.events == old(client.events)
      ensures symbol in old(dataManager).charts ==>
                && dataManager == old(dataManager).(activeSymbol := symbol)
                && client.commands == old(client.commands)
                && nextReqId == old(nextReqId) && issued == old(issued)
      ensures symbol !in old(dataManager).charts ==>
                && dataManager == old(dataManager)
                && client.commands == old(client.commands) + [RequestHistoricalData(old(nextReqId), symbol,
                     ChartEndDateTime, ChartDuration, ChartBarSize, ChartWhatToShow, ChartUseRTH)]
                && nextReqId == old(nextReqId) + 1 && issued == old(issued) + [old(nextReqId)]
    {
      if symbol in dataManager.charts {
        dataManager := dataManager.(activeSymbol := symbol);
      } else {
        RequestChart(symbol);
      }
    }
  }

  /** The reqIds of all chart requests an application has issued are pairwise distinct and increase with time. */
  lemma IssuedReqIdsDistinct(app: App)
    requires app.Valid()
    ensures forall i, j | 0 <= i < j < |app.issued| :: app.issued[i] < app.issued[j]
    ensures forall i | 0 <= i < |app.issued| :: app.issued[i] < app.nextReqId
  {
    AscendingIsStrict(app.issued);
  }
}
