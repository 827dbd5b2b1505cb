/**
 * The C-compatible boundary record layout: the closed set of kind tags, the
 * payload records with their fixed-width text fields and owned sub-arrays,
 * and the contracts of the event polling and release functions.
 */
module CBoundary {
  import opened Wrappers
  import opened Trading
  import opened CText

  /** The kinds a delivered record can have. */
  datatype Kind = NoEvent | HistoricalData | ScannerResultKind | AccountValueKind | PositionKind

  /** The `IBKR_EVENT_*` constant of each kind. */
  function Tag(k: Kind): (t: int)
    ensures 0 <= t <= 4
  {
    match k
    case NoEvent => 0
    case HistoricalData => 1
    case ScannerResultKind => 2
    case AccountValueKind => 3
    case PositionKind => 4
  }

  /** The kind a tag value stands for, if any. */
  function KindOfTag(t: int): (k: Option<Kind>)
  {
    if t == 0 then Some(NoEvent)
    else if t == 1 then Some(HistoricalData)
    else if t == 2 then Some(ScannerResultKind)
    else if t == 3 then Some(AccountValueKind)
    else if t == 4 then Some(PositionKind)
    else None
  }

  /** The tags are pairwise distinct and exactly 0..4 are tags: decoding a tag gives its kind back. */
  lemma TagRoundTrip(k: Kind, t: int)
    ensures KindOfTag(Tag(k)) == Some(k)
    ensures KindOfTag(t).Some? <==> 0 <= t <= 4
    ensures KindOfTag(t) == Some(k) <==> Tag(k) == t
  {
  }

  // Widths of the fixed-size text fields, terminator included.
  const DateWidth: nat := 32
  const SymbolWidth: nat := 32
  const SecTypeWidth: nat := 16
  const CurrencyWidth: nat := 8
  const KeyWidth: nat := 64
  const ValueWidth: nat := 64
  const AccountNameWidth: nat := 32
  const AccountWidth: nat := 32

  /** A `char[width]` field holding a terminated C string. */
  predicate FixedText(buf: seq<char>, width: nat)
  {
    width >= 1 && |buf| == width && buf[width - 1] == NUL
  }

  /**
   * Filling a `char[width]` field the bridge's way (`strncpy` of `width - 1`
   * bytes, then a forced NUL) always yields a terminated field of that width,
   * which reads back as the source truncated to `width - 1` characters.
   */
  lemma FixedCopyFillsField(buf: seq<char>, src: string, width: nat)
    requires width >= 1 && |buf| == width
    ensures FixedText(FixedCopy(buf, src), width)
    ensures CString(FixedCopy(buf, src)) == Truncated(CString(src), width - 1)
  {
    FixedCopyShape(buf, src);
    FixedCopyReadBack(buf, src);
  }

  datatype IbkrCandle = IbkrCandle(date: seq<char>, open: Double, high: Double, low: Double, close: Double, volume: int)

  /** `candles` is a heap array owned by the record, `candleCount` long. */
  datatype IbkrHistoricalData = IbkrHistoricalData(reqId: int, symbol: seq<char>, candles: array<IbkrCandle>, candleCount: int)

  datatype IbkrScannerItem = IbkrScannerItem(rank: int, symbol: seq<char>, secType: seq<char>, currency: seq<char>, conId: int)

  /** `items` is a heap array owned by the record, `itemCount` long. */
  datatype IbkrScannerResult = IbkrScannerResult(reqId: int, items: array<IbkrScannerItem>, itemCount: int)

  datatype IbkrAccountValue = IbkrAccountValue(key: seq<char>, value: seq<char>, currency: seq<char>, accountName: seq<char>)

  datatype IbkrPosition = IbkrPosition(account: seq<char>, symbol: seq<char>, secType: seq<char>,
                                       position: Double, marketPrice: Double, marketValue: Double,
                                       averageCost: Double, unrealizedPNL: Double, realizedPNL: Double)

  /** The heap block of a payload struct, which `data` points at; only its identity matters here. */
  class PayloadBlock {
    constructor ()
    {
    }
  }

  /**
   * What `data` points at: `NoData` is the null pointer; every other payload
   * is a struct in its own heap block, owned by the record.
   */
  datatype Payload =
    | NoData
    | HistoricalPayload(block: PayloadBlock, hist: IbkrHistoricalData)
    | ScannerPayload(block: PayloadBlock, scan: IbkrScannerResult)
    | AccountValuePayload(block: PayloadBlock, accountValue: IbkrAccountValue)
    | PositionPayload(block: PayloadBlock, position: IbkrPosition)

  /** The generic record: an `IBKR_EVENT_*` tag and the payload it describes. */
  datatype IbkrCEvent = IbkrCEvent(tag: int, data: Payload)

  /** The kind of record a payload belongs to. */
  function PayloadKind(p: Payload): Kind
  {
    match p
    case NoData => NoEvent
    case HistoricalPayload(_, _) => HistoricalData
    case ScannerPayload(_, _) => ScannerResultKind
    case AccountValuePayload(_, _) => AccountValueKind
    case PositionPayload(_, _) => PositionKind
  }

  /** The heap memory a record owns, which releasing it frees: the payload struct and its sub-array, if any. */
  function Owned(ev: IbkrCEvent): set<object>
  {
    match ev.data
    case NoData => {}
    case HistoricalPayload(b, h) => {b, h.candles}
    case ScannerPayload(b, r) => {b, r.items}
    case AccountValuePayload(b, _) => {b}
    case PositionPayload(b, _) => {b}
  }

  /** The flat fields have their declared widths. */
  predicate PayloadFieldsFixed(p: Payload)
  {
    match p
    case NoData => true
    case HistoricalPayload(_, h) => FixedText(h.symbol, SymbolWidth)
    case ScannerPayload(_, _) => true
    case AccountValuePayload(_, v) =>
      FixedText(v.key, KeyWidth) && FixedText(v.value, ValueWidth)
      && FixedText(v.currency, CurrencyWidth) && FixedText(v.accountName, AccountNameWidth)
    case PositionPayload(_, q) =>
      FixedText(q.account, AccountWidth) && FixedText(q.symbol, SymbolWidth) && FixedText(q.secType, SecTypeWidth)
  }

  /**
   * A record as the header describes it: its tag is the constant of its
   * payload's kind, owned arrays are exactly as long as their count fields,
   * and text fields have their declared widths.
   */
  predicate Consistent(ev: IbkrCEvent)
  {
    && ev.tag == Tag(PayloadKind(ev.data))
    && (ev.data.HistoricalPayload? ==> ev.data.hist.candles.Length == ev.data.hist.candleCount)
    && (ev.data.ScannerPayload? ==> ev.data.scan.items.Length == ev.data.scan.itemCount)
    && PayloadFieldsFixed(ev.data)
  }

  /** The text fields inside the owned arrays have their declared widths. */
  ghost predicate ElementsFixed(ev: IbkrCEvent)
    reads Owned(ev)
  {
    match ev.data
    case HistoricalPayload(_, h) =>
      forall i | 0 <= i < h.candles.Length :: FixedText(h.candles[i].date, DateWidth)
    case ScannerPayload(_, s) =>
      forall i | 0 <= i < s.items.Length ::
        FixedText(s.items[i].symbol, SymbolWidth) && FixedText(s.items[i].secType, SecTypeWidth)
        && FixedText(s.items[i].currency, CurrencyWidth)
    case _ => true
  }

  /**
   * In a consistent record the tag alone tells which payload `data` holds,
   * and what the record owns: nothing for None, the payload struct for every
   * other kind, plus `candles` or `items` for the two array-carrying kinds.
   */
  lemma TagDeterminesPayload(ev: IbkrCEvent)
    requires Consistent(ev)
    ensures KindOfTag(ev.tag) == Some(PayloadKind(ev.data))
    ensures ev.tag == 0 <==> ev.data.NoData?
    ensures ev.tag == 1 <==> ev.data.HistoricalPayload?
    ensures ev.tag == 2 <==> ev.data.ScannerPayload?
    ensures ev.tag == 3 <==> ev.data.AccountValuePayload?
    ensures ev.tag == 4 <==> ev.data.PositionPayload?
    ensures ev.tag == 0 <==> Owned(ev) == {}
    ensures ev.tag == 1 ==> Owned(ev) == {ev.data.block, ev.data.hist.candles}
    ensures ev.tag == 2 ==> Owned(ev) == {ev.data.block, ev.data.scan.items}
    ensures ev.tag == 3 || ev.tag == 4 ==> Owned(ev) == {ev.data.block}
  {
  }

  /** Once a record other than None has been released, its memory is no longer outstanding, so it cannot be released again. */
  lemma NoDoubleRelease(live: set<object>, ev: IbkrCEvent)
    requires Consistent(ev) && ev.tag != Tag(NoEvent)
    ensures !(Owned(ev) <= live - Owned(ev))
  {
    assert ev.data.block in Owned(ev);
  }

  /** An `IbkrCEvent*` the caller passes in to be filled or released. */
  class CEventSlot {
    var ev: IbkrCEvent

    constructor ()
      ensures ev == IbkrCEvent(Tag(NoEvent), NoData)
    {
      ev := IbkrCEvent(Tag(NoEvent), NoData);
    }
  }

  /**
   * The polling surface of one handle, described only by the header's
   * comments: `ready` is the queue of records the handle can still deliver,
   * `live` the owned heap memory delivered and not yet released. Every ready
   * record owns memory of its own, not yet handed out.
   */
  class EventSurface {
    var ready: seq<IbkrCEvent>
    ghost var live: set<object>

    /** The memory owned by the ready records. */
    ghost function ReadyFootprint(): set<object>
      reads this
    {
      set i, o | 0 <= i < |ready| && o in Owned(ready[i]) :: o
    }

    ghost predicate Valid()
      reads this, ReadyFootprint()
    {
      && (forall i | 0 <= i < |ready| :: Consistent(ready[i]) && ElementsFixed(ready[i]))
      && (forall i | 0 <= i < |ready| :: Owned(ready[i]) !! live)
      && (forall i, j | 0 <= i < j < |ready| :: Owned(ready[i]) !! Owned(ready[j]))
    }

    constructor ()
      ensures Valid() && ready == [] && live == {}
    {
      ready := [];
      live := {};
    }

    /**
     * Returns 1 exactly when a record was written to `out` (the oldest ready
     * one, laid out as the header describes), 0 exactly when nothing is ready.
     * A delivered record's memory becomes outstanding and was not before.
     */
    method PollEvent(out: CEventSlot) returns (rc: int)
      requires Valid()
      modifies this, out
      ensures Valid()
      ensures rc == 1 <==> old(ready) != []
      ensures rc == 0 <==> old(ready) == []
      ensures rc == 1 ==> && out.ev == old(ready)[0] && ready == old(ready)[1..]
                          && Consistent(out.ev) && ElementsFixed(out.ev)
                          && Owned(out.ev) !! old(live) && live == old(live) + Owned(out.ev)
      ensures rc == 0 ==> ready == old(ready) && live == old(live)
    {
      if ready == [] {
        rc := 0;
      } else {
        out.ev := ready[0];
        ready := ready[1..];
        live := live + Owned(out.ev);
        rc := 1;
      }
    }

    /**
     * Releases the heap memory owned by a polled record: the payload struct
     * and, for historical data, `candles`, for a scanner result, `items`.
     * That memory must still be outstanding, so a record cannot be released twice.
     */
    method FreeEvent(event: CEventSlot)
      requires Valid()
      requires Owned(event.ev) <= live
      modifies this
      ensures Valid() && ready == old(ready)
      ensures live == old(live) - Owned(event.ev)
    {
      live := live - Owned(event.ev);
    }
  }
}
