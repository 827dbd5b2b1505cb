/**
 * The bounded-copy C surface over one trading client: handle creation and
 * teardown guards, the command encoders, and the scanner poll that copies
 * rows into caller-owned storage.
 */
module CApi {
  import opened Wrappers
  import opened Trading
  import opened Client
  import opened CText

  const DefaultHost: string := "127.0.0.1"
  const ScannerLocation: string := "STK.US"

  /** The context behind an `IbkrHandle`: it owns one client. */
  class Ctx {
    const client: IbkrClient
    /** False once the handle has been destroyed; a destroyed handle must not be used again. */
    ghost var alive: bool

    constructor (client: IbkrClient)
      ensures this.client == client && alive
    {
      this.client := client;
      alive := true;
    }
  }

  /** Creates a handle whose client connects to `host`, or to the local host when `host` is null. */
  method IbkrCreate(host: Option<string>, port: int, clientId: int) returns (handle: Ctx)
    requires host.Some? ==> NUL !in host.value
    ensures fresh(handle) && fresh(handle.client) && handle.alive
    ensures handle.client.host == (if host.None? then DefaultHost else host.value)
    ensures handle.client.port == port && handle.client.clientId == clientId
    ensures handle.client.commands == [] && handle.client.events == []
  {
    var client := new IbkrClient(if host.Some? then host.value else DefaultHost, port, clientId);
    handle := new Ctx(client);
  }

  /** Tears a handle down; a null handle is ignored. No command is sent to the client. */
  method IbkrDestroy(handle: Ctx?)
    requires handle != null ==> handle.alive
    modifies if handle == null then {} else {handle}
    ensures handle != null ==> !handle.alive && unchanged(handle.client)
  {
    if handle == null {
      return;
    }
    handle.alive := false;
  }

  /** Sends exactly one Disconnect; a null handle is ignored. */
  method IbkrDisconnect(handle: Ctx?)
    requires handle != null ==> handle.alive
    modifies if handle == null then {} else {handle.client}
    ensures handle != null ==> handle.client.commands == old(handle.client.commands) + [Disconnect]
                               && handle.client.events == old(handle.client.events)
  {
    if handle == null {
      return;
    }
    handle.client.PushCommand(Disconnect);
  }

  /** Sends exactly one StartScanner for the US stock location; a null handle or a null scan code is ignored. */
  method IbkrStartScanner(handle: Ctx?, reqId: int, scanCode: Option<string>, priceAbove: Double)
    requires handle != null ==> handle.alive
    requires scanCode.Some? ==> NUL !in scanCode.value
    modifies if handle == null then {} else {handle.client}
    ensures handle != null && scanCode.None? ==> unchanged(handle.client)
    ensures handle != null && scanCode.Some? ==>
              handle.client.commands == old(handle.client.commands) + [StartScanner(reqId, scanCode.value, ScannerLocation, priceAbove)]
              && handle.client.events == old(handle.client.events)
  {
    if handle == null || scanCode.None? {
      return;
    }
    var cmd := StartScanner(reqId, scanCode.value, ScannerLocation, priceAbove);
    handle.client.PushCommand(cmd);
  }

  // ---- ibkr_poll_scanner ----

  /**
   * One caller-owned `CScannerItem`: the rank and the three text buffers the
   * poll writes (fields it does not write are not modelled).
   */
  datatype CScannerItem = CScannerItem(rank: int, symbol: seq<char>, secType: seq<char>, currency: seq<char>)

  /** The sizes of a `CScannerItem`'s buffers (its definition is not part of this model). */
  datatype ItemLayout = ItemLayout(symbolSize: nat, secTypeSize: nat, currencySize: nat)

  predicate ValidLayout(layout: ItemLayout)
  {
    layout.symbolSize >= 1 && layout.secTypeSize >= 1 && layout.currencySize >= 1
  }

  /** A row whose buffers have the sizes of the layout. */
  predicate Fits(row: CScannerItem, layout: ItemLayout)
  {
    |row.symbol| == layout.symbolSize && |row.secType| == layout.secTypeSize && |row.currency| == layout.currencySize
  }

  /** The call is refused before anything is read: null handle, null output, or no room. */
  predicate Misuse(handle: Ctx?, outItems: array?<CScannerItem>, maxItems: int)
  {
    handle == null || outItems == null || maxItems <= 0
  }

  /** The first scanner result of a drained batch, if any. */
  function FirstScanner(batch: seq<Event>): Option<ScannerResult>
  {
    if batch == [] then None
    else if batch[0].ScannerEvent? then Some(batch[0].result)
    else FirstScanner(batch[1..])
  }

  /** A slot after the poll copied `item` into it. */
  function CopyItem(slot: CScannerItem, item: ScannerItem): CScannerItem
    requires |slot.symbol| >= 1 && |slot.secType| >= 1 && |slot.currency| >= 1
  {
    slot.(rank := item.rank,
          symbol := FixedCopy(slot.symbol, item.symbol),
          secType := FixedCopy(slot.secType, item.secType),
          currency := FixedCopy(slot.currency, item.currency))
  }

  /** Slots after the first `count` items were copied into the first `count` of them. */
  function CopyPrefix(slots: seq<CScannerItem>, items: seq<ScannerItem>, count: nat, layout: ItemLayout): seq<CScannerItem>
    requires ValidLayout(layout)
    requires count <= |slots| && count <= |items|
    requires forall i | 0 <= i < |slots| :: Fits(slots[i], layout)
  {
    seq(|slots|, i requires 0 <= i < |slots| => if i < count then (assert Fits(slots[i], layout); CopyItem(slots[i], items[i])) else slots[i])
  }

  /** The number of rows a well-formed poll reports for the batch's first scanner result: -1 when there is none. */
  function PolledCount(first: Option<ScannerResult>, maxItems: int): int
  {
    match first
    case None => -1
    case Some(r) => if |r.items| < maxItems then |r.items| else maxItems
  }

  /** The caller's rows after a well-formed poll of a batch whose first scanner result is `first`. */
  function PolledRows(slots: seq<CScannerItem>, first: Option<ScannerResult>, maxItems: int, layout: ItemLayout): seq<CScannerItem>
    requires ValidLayout(layout) && 0 < maxItems <= |slots|
    requires forall i | 0 <= i < |slots| :: Fits(slots[i], layout)
  {
    match first
    case None => slots
    case Some(r) => CopyPrefix(slots, r.items, PolledCount(first, maxItems), layout)
  }

  /** No event of `b` is a scanner result. */
  predicate NoScanner(b: seq<Event>)
  {
    forall j | 0 <= j < |b| :: !b[j].ScannerEvent?
  }

  /**
   * The reported result is the first scanner result of the batch: every
   * event before it is something else, and there is none exactly when no
   * event of the batch is a scanner result.
   */
  lemma {:induction false} FirstScannerIsFirst(b: seq<Event>, r: ScannerResult)
    ensures FirstScanner(b) == Some(r) <==>
              exists k | 0 <= k < |b| :: b[k] == ScannerEvent(r) && NoScanner(b[..k])
    ensures FirstScanner(b).None? <==> NoScanner(b)
  {
    if b == [] {
    } else if b[0].ScannerEvent? {
      assert b[..0] == [];
      if b[0] != ScannerEvent(r) {
        forall k | 0 <= k < |b| && b[k] == ScannerEvent(r) ensures !NoScanner(b[..k]) {
          assert k > 0 && b[..k][0] == b[0];
        }
      }
    } else {
      FirstScannerIsFirst(b[1..], r);
      if FirstScanner(b) == Some(r) {
        var k :| 0 <= k < |b[1..]| && b[1..][k] == ScannerEvent(r) && NoScanner(b[1..][..k]);
        assert b[..k + 1] == [b[0]] + b[1..][..k];
        assert b[k + 1] == ScannerEvent(r) && NoScanner(b[..k + 1]);
      }
      if exists k | 0 <= k < |b| :: b[k] == ScannerEvent(r) && NoScanner(b[..k]) {
        var k :| 0 <= k < |b| && b[k] == ScannerEvent(r) && NoScanner(b[..k]);
        assert k > 0;
        assert b[1..][..k - 1] == b[..k][1..];
        assert b[1..][k - 1] == ScannerEvent(r) && NoScanner(b[1..][..k - 1]);
      }
      if NoScanner(b) {
        assert NoScanner(b[1..]) by {
          forall j | 0 <= j < |b[1..]| ensures !b[1..][j].ScannerEvent? { assert b[1..][j] == b[j + 1]; }
        }
      }
      if NoScanner(b[1..]) {
        forall j | 0 <= j < |b| ensures !b[j].ScannerEvent? { if j > 0 { assert b[j] == b[1..][j - 1]; } }
      }
    }
  }

  /** Whatever follows the first scanner result in the same batch has no effect on the poll: it is consumed and lost. */
  lemma {:induction false} LaterEventsIgnored(pre: seq<Event>, r: ScannerResult, post: seq<Event>)
    requires NoScanner(pre)
    ensures FirstScanner(pre + [ScannerEvent(r)] + post) == Some(r)
  {
    if pre != [] {
      assert (pre + [ScannerEvent(r)] + post)[0] == pre[0];
      assert (pre + [ScannerEvent(r)] + post)[1..] == pre[1..] + [ScannerEvent(r)] + post;
      assert NoScanner(pre[1..]) by {
        forall j | 0 <= j < |pre[1..]| ensures !pre[1..][j].ScannerEvent? { assert pre[1..][j] == pre[j + 1]; }
      }
      LaterEventsIgnored(pre[1..], r, post);
    }
  }

  /**
   * A well-formed poll returns -1 exactly when the batch holds no scanner
   * result; otherwise the smaller of `maxItems` and the first result's row
   * count, so an empty result gives 0.
   */
  lemma PolledCountMeaning(b: seq<Event>, maxItems: int)
    requires maxItems > 0
    ensures PolledCount(FirstScanner(b), maxItems) == -1 <==> NoScanner(b)
    ensures !NoScanner(b) ==>
              var r := FirstScanner(b).value;
              && 0 <= PolledCount(FirstScanner(b), maxItems) <= maxItems
              && PolledCount(FirstScanner(b), maxItems) <= |r.items|
              && (PolledCount(FirstScanner(b), maxItems) == maxItems || PolledCount(FirstScanner(b), maxItems) == |r.items|)
              && (r.items == [] ==> PolledCount(FirstScanner(b), maxItems) == 0)
  {
  }

  /**
   * Row `i` after a well-formed poll: a row below the count holds the rank of
   * source item `i` and each text field holds that item's text truncated to
   * the buffer size minus one, NUL padded and NUL terminated, with the
   * buffer sizes kept; every other row is untouched.
   */
  lemma PolledRowAt(slots: seq<CScannerItem>, first: Option<ScannerResult>, maxItems: int, layout: ItemLayout, i: nat)
    requires ValidLayout(layout) && 0 < maxItems <= |slots|
    requires forall j | 0 <= j < |slots| :: Fits(slots[j], layout)
    requires i < |slots|
    ensures var rows := PolledRows(slots, first, maxItems, layout);
            var count := PolledCount(first, maxItems);
            && |rows| == |slots| && Fits(rows[i], layout)
            && (i >= count ==> rows[i] == slots[i])
            && (0 <= i < count ==>
                  var item := first.value.items[i];
                  && rows[i].rank == item.rank
                  && rows[i].symbol == Truncated(CString(item.symbol), layout.symbolSize - 1)
                                       + Zeros(layout.symbolSize - |Truncated(CString(item.symbol), layout.symbolSize - 1)|)
                  && rows[i].secType == Truncated(CString(item.secType), layout.secTypeSize - 1)
                                        + Zeros(layout.secTypeSize - |Truncated(CString(item.secType), layout.secTypeSize - 1)|)
                  && rows[i].currency == Truncated(CString(item.currency), layout.currencySize - 1)
                                         + Zeros(layout.currencySize - |Truncated(CString(item.currency), layout.currencySize - 1)|)
                  && rows[i].symbol[layout.symbolSize - 1] == NUL
                  && rows[i].secType[layout.secTypeSize - 1] == NUL
                  && rows[i].currency[layout.currencySize - 1] == NUL)
  {
  }

  /** Read back as C strings, a copied row gives each source text exactly when it fits, and its first `size - 1` characters otherwise. */
  lemma PolledRowReadBack(slots: seq<CScannerItem>, first: Option<ScannerResult>, maxItems: int, layout: ItemLayout, i: nat)
    requires ValidLayout(layout) && 0 < maxItems <= |slots|
    requires forall j | 0 <= j < |slots| :: Fits(slots[j], layout)
    requires i < PolledCount(first, maxItems)
    ensures var rows := PolledRows(slots, first, maxItems, layout);
            var item := first.value.items[i];
            && CString(rows[i].symbol) == Truncated(CString(item.symbol), layout.symbolSize - 1)
            && CString(rows[i].secType) == Truncated(CString(item.secType), layout.secTypeSize - 1)
            && CString(rows[i].currency) == Truncated(CString(item.currency), layout.currencySize - 1)
  {
    var item := first.value.items[i];
    assert Fits(slots[i], layout);
    FixedCopyReadBack(slots[i].symbol, item.symbol);
    FixedCopyReadBack(slots[i].secType, item.secType);
    FixedCopyReadBack(slots[i].currency, item.currency);
  }

  /**
   * Drains the client's events, skips to the first scanner result and copies
   * at most `maxItems` of its rows into `outItems`, returning how many; -1 on
   * misuse or when the batch holds no scanner result. The whole batch is
   * consumed either way.
   */
  method IbkrPollScanner(handle: Ctx?, outItems: array?<CScannerItem>, maxItems: int, ghost layout: ItemLayout)
    returns (r: int)
    requires handle != null ==> handle.alive
    requires ValidLayout(layout)
    requires outItems != null ==> maxItems <= outItems.Length
    requires outItems != null ==> forall i | 0 <= i < outItems.Length :: Fits(outItems[i], layout)
    modifies if handle == null then {} else {handle.client}
    modifies outItems
    ensures Misuse(handle, outItems, maxItems) ==> r == -1 && (outItems != null ==> unchanged(outItems))
    ensures Misuse(handle, outItems, maxItems) && handle != null ==> unchanged(handle.client)
    ensures !Misuse(handle, outItems, maxItems) ==>
              && r == PolledCount(FirstScanner(old(handle.client.events)), maxItems)
              && outItems[..] == PolledRows(old(outItems[..]), FirstScanner(old(handle.client.events)), maxItems, layout)
              && handle.client.events == [] && handle.client.commands == old(handle.client.commands)
  {
    if handle == null || outItems == null || maxItems <= 0 {
      return -1;
    }
    var events := handle.client.ConsumeEvents();
    ghost var batch := events;
    while events != []
      invariant FirstScanner(events) == FirstScanner(batch)
      invariant unchanged(outItems)
      invariant handle.client.events == [] && handle.client.commands == old(handle.client.commands)
      decreases |events|
    {
      if events[0].ScannerEvent? {
        var result := events[0].result;
        var count := 0;
        while count < |result.items|
          invariant 0 <= count <= |result.items| && count <= maxItems
          invariant forall i | 0 <= i < outItems.Length :: Fits(outItems[i], layout)
          invariant outItems[..] == CopyPrefix(old(outItems[..]), result.items, count, layout)
          invariant handle.client.events == [] && handle.client.commands == old(handle.client.commands)
        {
          if count >= maxItems {
            break;
          }
          var item := result.items[count];
          ghost var before := outItems[..];
          outItems[count] := outItems[count].(rank := item.rank);
          outItems[count] := outItems[count].(symbol := Strncpy(outItems[count].symbol, item.symbol, |outItems[count].symbol| - 1));
          outItems[count] := outItems[count].(secType := Strncpy(outItems[count].secType, item.secType, |outItems[count].secType| - 1));
          outItems[count] := outItems[count].(currency := Strncpy(outItems[count].currency, item.currency, |outItems[count].currency| - 1));
          outItems[count] := outItems[count].(symbol := outItems[count].symbol[|outItems[count].symbol| - 1 := NUL]);
          outItems[count] := outItems[count].(secType := outItems[count].secType[|outItems[count].secType| - 1 := NUL]);
          outItems[count] := outItems[count].(currency := outItems[count].currency[|outItems[count].currency| - 1 := NUL]);
          assert outItems[count] == CopyItem(before[count], item);
          assert outItems[..] == before[count := CopyItem(before[count], item)];
          count := count + 1;
        }
        return count;
      }
      events := events[1..];
    }
    return -1;
  }
}
