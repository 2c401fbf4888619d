/** The MySQL crawler (crawler/main.py): for every listed stock it scrapes a quote,
    the stock's name and the foreign net-buy table, flattens the eight-slot window into
    sixteen columns and upserts one MarketData row. Every scrape and database call is
    an input: `StockInput` holds what each of them returns for one stock. */
module CrawlerMain {
  import opened Common
  import opened Scrape

  // ---------------------------------------------------------------------------
  // get_foreigner_net_buy

  /** One row as main.py reads it: the date cell and an integer net-buy cell must both
      be there; a row that raises `IndexError` or `ValueError` (a blank cell included)
      becomes the empty slot at its own position. */
  function RowSlot(row: FrgnRow): Slot
  {
    if row.date.Some? && row.netBuy.Number? then Slot(row.date.value, row.netBuy.n) else EmptySlot
  }

  /** Slot `i` of the window built from a page: row `i` when the page was fetched and
      has that row, the empty slot otherwise. */
  function SlotAt(page: Option<seq<FrgnRow>>, i: nat): Slot
  {
    if page.Some? && i < |page.value| then RowSlot(page.value[i]) else EmptySlot
  }

  /** Only the first eight rows are read, each in its own slot, and the window is
      padded to eight slots; a failed request yields eight empty slots. */
  method GetForeignerNetBuy(page: Option<seq<FrgnRow>>) returns (w: seq<Slot>)
    ensures |w| == WindowSize
    ensures forall i :: 0 <= i < WindowSize ==> w[i] == SlotAt(page, i)
  {
    if page.None? {
      return EmptyWindow();
    }
    var rows := page.value[..Min(WindowSize, |page.value|)];
    w := [];
    for j := 0 to |rows|
      invariant |w| == j
      invariant forall i :: 0 <= i < j ==> w[i] == RowSlot(rows[i])
    {
      w := w + [RowSlot(rows[j])];
    }
    while |w| < WindowSize
      invariant |rows| <= |w| <= WindowSize
      invariant forall i :: 0 <= i < |rows| ==> w[i] == RowSlot(rows[i])
      invariant forall i :: |rows| <= i < |w| ==> w[i] == EmptySlot
      decreases WindowSize - |w|
    {
      w := w + [EmptySlot];
    }
  }

  /** A row that fails to parse does not disturb the rows after it. */
  lemma LaterRowsSurvive(rows: seq<FrgnRow>, bad: nat, later: nat)
    requires bad < later < |rows| && later < WindowSize
    requires rows[bad].netBuy == Garbage && rows[later].date.Some? && rows[later].netBuy.Number?
    ensures SlotAt(Some(rows), bad) == EmptySlot
    ensures SlotAt(Some(rows), later) == Slot(rows[later].date.value, rows[later].netBuy.n)
  {
  }

  // ---------------------------------------------------------------------------
  // The MarketData table and save_market_data

  /** The columns of one MarketData row: `foreignerNetBuy{i}` is `netBuy[i-1]` and
      `foreignerNetBuyDate{i}` is `netBuyDate[i-1]`, for i from 1 to 8. */
  datatype SqlRecord = SqlRecord(
    symbol: string,
    date: string,
    price: int,
    change: int,
    changeRate: real,
    stockName: string,
    netBuy: seq<int>,
    netBuyDate: seq<string>)

  datatype SqlRow = SqlRow(record: SqlRecord, createdAt: string, updatedAt: string)

  /** The `ON DUPLICATE KEY UPDATE` branch: every data column and `updatedAt` take
      the new values; the key columns and `createdAt` stay. */
  function Upsert(existing: SqlRow, incoming: SqlRecord, now: string): SqlRow
  {
    SqlRow(incoming.(symbol := existing.record.symbol, date := existing.record.date), existing.createdAt, now)
  }

  /** On a duplicate key every data column and `updatedAt` are overwritten while the
      key columns and `createdAt` stay; upserting the same data twice is the same as
      upserting it once, at the later time. */
  lemma UpsertIdempotent(existing: SqlRow, incoming: SqlRecord, first: string, second: string)
    ensures var r := Upsert(existing, incoming, first);
            && r.record.symbol == existing.record.symbol && r.record.date == existing.record.date
            && r.record.price == incoming.price && r.record.change == incoming.change
            && r.record.changeRate == incoming.changeRate && r.record.stockName == incoming.stockName
            && r.record.netBuy == incoming.netBuy && r.record.netBuyDate == incoming.netBuyDate
            && r.createdAt == existing.createdAt && r.updatedAt == first
    ensures Upsert(Upsert(existing, incoming, first), incoming, second) == Upsert(existing, incoming, second)
  {
  }

  /** A save: nothing when the database call fails (main.py logs the error and goes
      on); the upsert of the row the insert collides with, when a unique key of the
      deployed schema matches one (`conflict`); an insert otherwise. */
  function SaveRows(rows: seq<SqlRow>, data: SqlRecord, now: string, conflict: Option<nat>, fault: bool): seq<SqlRow>
  {
    if fault then rows
    else if conflict.Some? && conflict.value < |rows| then rows[conflict.value := Upsert(rows[conflict.value], data, now)]
    else rows + [SqlRow(data, now, now)]
  }

  class MarketDataTable {
    var rows: seq<SqlRow>

    constructor ()
      ensures rows == []
    {
      rows := [];
    }

    method SaveMarketData(data: SqlRecord, now: string, conflict: Option<nat>, fault: bool)
      modifies this
      ensures rows == SaveRows(old(rows), data, now, conflict, fault)
    {
      if fault {
        return;
      }
      if conflict.Some? && conflict.value < |rows| {
        rows := rows[conflict.value := Upsert(rows[conflict.value], data, now)];
      } else {
        rows := rows + [SqlRow(data, now, now)];
      }
    }
  }

  // ---------------------------------------------------------------------------
  // main

  /** What every outside call returns for one stock: the quote page, the name
      lookup, the net-buy page, the row (if any) a unique key makes the insert
      collide with, and whether the database write fails. */
  datatype StockInput = StockInput(
    quote: Option<QuotePage>,
    name: Option<string>,
    frgn: Option<seq<FrgnRow>>,
    conflict: Option<nat>,
    dbFault: bool)

  /** `main`'s per-stock decision: the row it hands to `save_market_data`, or `None`
      when the quote failed or the name lookup came back empty. */
  function Prepared(symbol: string, input: StockInput, today: string): Option<SqlRecord>
  {
    var q := ParseQuote(input.quote);
    if q.None? || !Truthy(input.name) then None
    else
      Some(SqlRecord(symbol, today, q.value.price, q.value.change, q.value.changeRate, input.name.value,
                     seq(WindowSize, i requires 0 <= i < WindowSize => SlotAt(input.frgn, i).netBuy),
                     seq(WindowSize, i requires 0 <= i < WindowSize => SlotAt(input.frgn, i).date)))
  }

  /** The rows handed to `save_market_data` for the first `n` stocks, in order. */
  function Records(symbols: seq<string>, inputs: seq<StockInput>, n: nat, today: string): seq<SqlRecord>
    requires n <= |symbols| && n <= |inputs|
  {
    if n == 0 then []
    else
      Records(symbols, inputs, n - 1, today) +
      (match Prepared(symbols[n - 1], inputs[n - 1], today)
       case Some(r) => [r]
       case None => [])
  }

  /** The table after the first `n` stocks were processed. */
  function Crawled(rows: seq<SqlRow>, symbols: seq<string>, inputs: seq<StockInput>, n: nat, today: string, now: string): seq<SqlRow>
    requires n <= |symbols| && n <= |inputs|
  {
    if n == 0 then rows
    else
      var before := Crawled(rows, symbols, inputs, n - 1, today, now);
      match Prepared(symbols[n - 1], inputs[n - 1], today)
      case Some(r) => SaveRows(before, r, now, inputs[n - 1].conflict, inputs[n - 1].dbFault)
      case None => before
  }

  /** `main` over the listed symbols (the names the listing query also returns are
      only logged). */
  method Crawl(db: MarketDataTable, symbols: seq<string>, inputs: seq<StockInput>, today: string, now: string)
    returns (saved: seq<SqlRecord>)
    requires |inputs| == |symbols|
    modifies db
    ensures saved == Records(symbols, inputs, |symbols|, today)
    ensures db.rows == Crawled(old(db.rows), symbols, inputs, |symbols|, today, now)
  {
    saved := [];
    if |symbols| == 0 {
      return;
    }
    for i := 0 to |symbols|
      invariant saved == Records(symbols, inputs, i, today)
      invariant db.rows == Crawled(old(db.rows), symbols, inputs, i, today, now)
    {
      var quote := ParseQuote(inputs[i].quote);
      if quote.Some? {
        var name := inputs[i].name;
        if !Truthy(name) {
          continue;
        }
        var window := GetForeignerNetBuy(inputs[i].frgn);
        var netBuy := seq(WindowSize, j requires 0 <= j < WindowSize => window[j].netBuy);
        var netBuyDate := seq(WindowSize, j requires 0 <= j < WindowSize => window[j].date);
        assert netBuy == seq(WindowSize, j requires 0 <= j < WindowSize => SlotAt(inputs[i].frgn, j).netBuy);
        assert netBuyDate == seq(WindowSize, j requires 0 <= j < WindowSize => SlotAt(inputs[i].frgn, j).date);
        var data := SqlRecord(symbols[i], today, quote.value.price, quote.value.change, quote.value.changeRate,
                              name.value, netBuy, netBuyDate);
        db.SaveMarketData(data, now, inputs[i].conflict, inputs[i].dbFault);
        saved := saved + [data];
      }
    }
  }

  /** Nothing is saved for a stock whose quote failed or whose name lookup failed;
      otherwise the saved row carries the stock's symbol, today's date, the scraped
      name and quote, and slot i of the window in position i (column `foreignerNetBuy{i+1}`). */
  lemma PreparedRow(symbol: string, input: StockInput, today: string)
    ensures Prepared(symbol, input, today).Some? <==> ParseQuote(input.quote).Some? && Truthy(input.name)
    ensures Prepared(symbol, input, today).Some? ==>
      var r := Prepared(symbol, input, today).value;
      var q := ParseQuote(input.quote).value;
      && r.symbol == symbol && r.date == today && r.stockName == input.name.value
      && r.price == q.price && r.change == q.change && r.changeRate == q.changeRate
      && |r.netBuy| == WindowSize && |r.netBuyDate| == WindowSize
      && forall i :: 0 <= i < WindowSize ==>
           r.netBuy[i] == SlotAt(input.frgn, i).netBuy && r.netBuyDate[i] == SlotAt(input.frgn, i).date
  {
  }

  /** At most one row is saved per listed stock. */
  lemma {:induction false} RecordsBound(symbols: seq<string>, inputs: seq<StockInput>, n: nat, today: string)
    requires n <= |symbols| && n <= |inputs|
    ensures |Records(symbols, inputs, n, today)| <= n
  {
    if n > 0 {
      RecordsBound(symbols, inputs, n - 1, today);
    }
  }

  /** Crawling only adds rows or updates them in place, and never moves the
      `createdAt` of a row that was already there. */
  lemma {:induction false} CrawlKeepsCreatedAt(rows: seq<SqlRow>, symbols: seq<string>, inputs: seq<StockInput>, n: nat, today: string, now: string)
    requires n <= |symbols| && n <= |inputs|
    ensures |Crawled(rows, symbols, inputs, n, today, now)| >= |rows|
    ensures forall i :: 0 <= i < |rows| ==> Crawled(rows, symbols, inputs, n, today, now)[i].createdAt == rows[i].createdAt
  {
    if n > 0 {
      CrawlKeepsCreatedAt(rows, symbols, inputs, n - 1, today, now);
    }
  }
}
