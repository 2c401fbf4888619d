/** The Lambda crawler (crawler/lambda_main.py): the DynamoDB counterpart of the MySQL
    crawler. It crawls the symbols named in the event, or else every symbol on a
    watch list, and stores one MarketData item per stock through `create_market_data`.
    Scrapes and store faults are inputs, as in the MySQL crawler. */
module CrawlerLambda {
  import opened Common
  import opened Table
  import opened Scrape
  import CrawlerDb
  import CrawlerMain

  // ---------------------------------------------------------------------------
  // get_foreigner_net_buy: all or nothing

  /** One row as the Lambda reads it: the date cell and the net-buy cell must exist,
      and an empty net-buy text counts as 0 (`int(text or 0)`); anything else that is
      not an integer raises. */
  function ParsedRow(row: FrgnRow): Option<Slot>
  {
    match row.date
    case None => None
    case Some(d) =>
      match row.netBuy
      case Number(n) => Some(Slot(d, n))
      case Blank => Some(Slot(d, 0))
      case Missing => None
      case Garbage => None
  }

  /** The rows the Lambda reads: the first eight. */
  function Head(rows: seq<FrgnRow>): seq<FrgnRow>
  {
    rows[..Min(WindowSize, |rows|)]
  }

  predicate AllRowsParse(rows: seq<FrgnRow>)
  {
    forall i :: 0 <= i < |rows| ==> ParsedRow(rows[i]).Some?
  }

  /** Slot `i` of the Lambda's window: a single row among the first eight that
      raises discards all of them (the exception handler returns eight empty slots),
      and so does a failed request. */
  function SlotAt(page: Option<seq<FrgnRow>>, i: nat): Slot
  {
    if page.None? || !AllRowsParse(Head(page.value)) then EmptySlot
    else if i < |Head(page.value)| then ParsedRow(page.value[i]).value
    else EmptySlot
  }

  method GetForeignerNetBuy(page: Option<seq<FrgnRow>>) returns (w: seq<Slot>)
    ensures |w| == WindowSize
    ensures forall i :: 0 <= i < WindowSize ==> w[i] == SlotAt(page, i)
  {
    if page.None? {
      return EmptyWindow();
    }
    var rows := Head(page.value);
    w := [];
    for j := 0 to |rows|
      invariant |w| == j
      invariant forall i :: 0 <= i < j ==> ParsedRow(rows[i]).Some? && w[i] == ParsedRow(rows[i]).value
    {
      var slot := ParsedRow(rows[j]);
      if slot.None? {
        assert !AllRowsParse(rows);
        return EmptyWindow();
      }
      w := w + [slot.value];
    }
    while |w| < WindowSize
      invariant |rows| <= |w| <= WindowSize
      invariant forall i :: 0 <= i < |rows| ==> w[i] == ParsedRow(rows[i]).value
      invariant forall i :: |rows| <= i < |w| ==> w[i] == EmptySlot
      decreases WindowSize - |w|
    {
      w := w + [EmptySlot];
    }
  }

  /** One unreadable row among the first eight empties the whole window. */
  lemma OneBadRowEmptiesWindow(rows: seq<FrgnRow>, bad: nat)
    requires bad < |rows| && bad < WindowSize && ParsedRow(rows[bad]).None?
    ensures forall i :: 0 <= i < WindowSize ==> SlotAt(Some(rows), i) == EmptySlot
  {
    assert Head(rows)[bad] == rows[bad];
  }

  /** Rows after the eighth are never read, whatever they hold. */
  lemma LaterRowsIgnored(rows: seq<FrgnRow>, extra: seq<FrgnRow>)
    requires |rows| == WindowSize
    ensures forall i :: 0 <= i < WindowSize ==> SlotAt(Some(rows + extra), i) == SlotAt(Some(rows), i)
  {
    assert Head(rows + extra) == rows == Head(rows);
  }

  /** The two crawlers read the same page differently: a garbled cell in the first
      row costs the MySQL crawler that one slot and the Lambda all eight, and a blank
      cell is the empty slot for the MySQL crawler but a dated 0 for the Lambda. */
  lemma CrawlersDisagree()
    ensures
      var page := Some([FrgnRow(Some("2025.08.01"), Garbage), FrgnRow(Some("2025.07.31"), Number(5))]);
      && CrawlerMain.SlotAt(page, 1) == Slot("2025.07.31", 5)
      && SlotAt(page, 1) == EmptySlot
    ensures
      var page := Some([FrgnRow(Some("2025.08.01"), Blank)]);
      && CrawlerMain.SlotAt(page, 0) == EmptySlot
      && SlotAt(page, 0) == Slot("2025.08.01", 0)
  {
    var page := [FrgnRow(Some("2025.08.01"), Garbage), FrgnRow(Some("2025.07.31"), Number(5))];
    assert Head(page)[0] == page[0];
    assert !AllRowsParse(Head(page));
  }

  // ---------------------------------------------------------------------------
  // Date normalisation

  /** `date.replace('.', '-')`. */
  function DashDate(d: string): (r: string)
    ensures |r| == |d|
    ensures forall i :: 0 <= i < |d| ==> r[i] == (if d[i] == '.' then '-' else d[i])
  {
    if d == [] then []
    else [if d[0] == '.' then '-' else d[0]] + DashDate(d[1..])
  }

  /** The stored date of a slot: the dashed date, or '' for an empty slot. */
  function StoredDate(d: string): string
  {
    if d != "" then DashDate(d) else ""
  }

  /** Normalising leaves no '.', keeps every other character in place, is
      idempotent, and the empty-slot guard makes no difference. */
  lemma DashDateProperties(d: string)
    ensures forall i :: 0 <= i < |d| ==> DashDate(d)[i] != '.'
    ensures forall i :: 0 <= i < |d| && d[i] != '.' ==> DashDate(d)[i] == d[i]
    ensures DashDate(DashDate(d)) == DashDate(d)
    ensures StoredDate(d) == DashDate(d)
  {
  }

  /** The dates of the net-buy page become ISO dates. */
  lemma DashDateExample()
    ensures DashDate("2025.08.01") == "2025-08-01"
  {
  }

  // ---------------------------------------------------------------------------
  // The stock listing

  datatype Listed = Listed(symbol: string, name: Option<string>)

  /** `[(s, get_stock_name_from_symbol(s)) for s in symbols]`; `names[i]` is the
      lookup for `symbols[i]` (missing lookups count as failed). */
  function RequestedListing(symbols: seq<string>, names: seq<Option<string>>): (l: seq<Listed>)
    ensures |l| == |symbols|
    ensures forall i :: 0 <= i < |l| ==> l[i].symbol == symbols[i]
  {
    seq(|symbols|, i requires 0 <= i < |symbols| => Listed(symbols[i], if i < |names| then names[i] else None))
  }

  /** The scan's filter: every item whose sort key starts with 'STOCK#'. */
  ghost function StockKeys(m: map<Key, Item>): set<Key>
  {
    set k | k in m && StartsWith(k.1, "STOCK#")
  }

  /** Whether an item carries a `stockName` attribute: only MarketData items do. */
  predicate HasStockName(it: Item)
  {
    it.MarketItem?
  }

  /** The listing as written: `item['stockName']` raises `KeyError` (uncaught by the
      `ClientError` handler, so the whole run fails) on the first item without that
      attribute. */
  function ScanAsWritten(rows: seq<Row>): Option<seq<Listed>>
  {
    if rows == [] then Some([])
    else if !HasStockName(rows[0].item) then None
    else
      match ScanAsWritten(rows[1..])
      case None => None
      case Some(rest) => Some([Listed(rows[0].item.market.symbol, Some(rows[0].item.market.stockName))] + rest)
  }

  /** The listing as intended: a watch-list entry stores its name under `name`. */
  function ScanIntended(rows: seq<Row>): (l: seq<Listed>)
    ensures |l| <= |rows|
  {
    if rows == [] then []
    else
      (match rows[0].item
       case StockItem(e) => [Listed(e.symbol, Some(e.name))]
       case _ => []) + ScanIntended(rows[1..])
  }

  lemma {:induction false} ScanAsWrittenFails(rows: seq<Row>, i: nat)
    requires i < |rows| && !HasStockName(rows[i].item)
    ensures ScanAsWritten(rows) == None
    decreases i
  {
    if i > 0 && HasStockName(rows[0].item) {
      ScanAsWrittenFails(rows[1..], i - 1);
    }
  }

  lemma {:induction false} ScanIntendedHas(rows: seq<Row>, i: nat)
    requires i < |rows| && rows[i].item.StockItem?
    ensures Listed(rows[i].item.stock.symbol, Some(rows[i].item.stock.name)) in ScanIntended(rows)
    decreases i
  {
    if i > 0 {
      ScanIntendedHas(rows[1..], i - 1);
    }
  }

  /** As written, any watch-list entry in the table makes the scan fail. */
  lemma ScanFailsOnWatchList(rows: seq<Row>, m: map<Key, Item>, k: Key)
    requires Lists(rows, m, StockKeys(m))
    requires k in m && m[k].StockItem? && k == (UserPk(m[k].stock.userId), StockSk(m[k].stock.symbol))
    ensures ScanAsWritten(rows) == None
  {
    PrefixConcat("STOCK#", m[k].stock.symbol);
    assert k in StockKeys(m);
    var i :| 0 <= i < |rows| && rows[i].key == k;
    ScanAsWrittenFails(rows, i);
  }

  /** As intended, every watch-list entry of every user is crawled, under its stored
      name. */
  lemma ScanListsWatchList(rows: seq<Row>, m: map<Key, Item>, k: Key)
    requires Lists(rows, m, StockKeys(m))
    requires k in m && m[k].StockItem? && k == (UserPk(m[k].stock.userId), StockSk(m[k].stock.symbol))
    ensures Listed(m[k].stock.symbol, Some(m[k].stock.name)) in ScanIntended(rows)
  {
    PrefixConcat("STOCK#", m[k].stock.symbol);
    assert k in StockKeys(m);
    var i :| 0 <= i < |rows| && rows[i].key == k;
    ScanIntendedHas(rows, i);
  }

  /** `get_stocks_from_db` with the corrected attribute name; a `ClientError`
      (`fault`) gives the empty list. */
  method GetStocksFromDb(t: Table, fault: bool) returns (listing: seq<Listed>, ghost rows: seq<Row>)
    ensures fault ==> listing == []
    ensures !fault ==> Lists(rows, t.items, StockKeys(t.items)) && listing == ScanIntended(rows)
  {
    if fault {
      return [], [];
    }
    var found := t.Select((k: Key, it: Item) => StartsWith(k.1, "STOCK#"));
    assert (set k | k in t.items && ((k: Key, it: Item) => StartsWith(k.1, "STOCK#"))(k, t.items[k])) == StockKeys(t.items);
    listing, rows := ScanIntended(found), found;
  }

  // ---------------------------------------------------------------------------
  // main

  /** The outside calls for one listed stock: the quote page, the second name
      lookup, the net-buy page, and whether `create_market_data` raises. */
  datatype CrawlInput = CrawlInput(quote: Option<QuotePage>, name: Option<string>, frgn: Option<seq<FrgnRow>>, storeFault: bool)

  const NoInput: CrawlInput := CrawlInput(None, None, None, false)

  function InputAt(inputs: seq<CrawlInput>, i: nat): CrawlInput
  {
    if i < |inputs| then inputs[i] else NoInput
  }

  datatype Status = Success | Failed

  datatype SymbolResult = SymbolResult(symbol: string, status: Status)

  /** The handler's two replies: 200 with one result per listed stock, or 500 after
      an exception. */
  datatype Reply = Completed(results: seq<SymbolResult>) | Errored

  function StatusCode(r: Reply): int
  {
    if r.Completed? then 200 else 500
  }

  /** The payload handed to `create_market_data` for one listed stock, or `None`
      when the quote failed or no name was found by either lookup. */
  function Payload(s: Listed, input: CrawlInput, today: string): Option<MarketDataInput>
  {
    var q := ParseQuote(input.quote);
    var name := OrElse(input.name, s.name);
    if q.None? || !Truthy(name) then None
    else
      Some(MarketDataInput(s.symbol, today, q.value.price, q.value.change, q.value.changeRate, name.value,
                           Some(seq(WindowSize, i requires 0 <= i < WindowSize => SlotAt(input.frgn, i).netBuy)),
                           Some(seq(WindowSize, i requires 0 <= i < WindowSize => StoredDate(SlotAt(input.frgn, i).date)))))
  }

  function ResultOf(s: Listed, input: CrawlInput, today: string): SymbolResult
  {
    SymbolResult(s.symbol, if Payload(s, input, today).Some? then Success else Failed)
  }

  predicate Crashes(listing: seq<Listed>, inputs: seq<CrawlInput>, today: string, i: nat)
    requires i < |listing|
  {
    Payload(listing[i], InputAt(inputs, i), today).Some? && InputAt(inputs, i).storeFault
  }

  /** The first stock at or after `from` whose store write raises, or `|listing|`. */
  function FirstCrash(listing: seq<Listed>, inputs: seq<CrawlInput>, today: string, from: nat): (n: nat)
    requires from <= |listing|
    ensures from <= n <= |listing|
    ensures forall i :: from <= i < n ==> !Crashes(listing, inputs, today, i)
    ensures n < |listing| ==> Crashes(listing, inputs, today, n)
    decreases |listing| - from
  {
    if from == |listing| then from
    else if Crashes(listing, inputs, today, from) then from
    else FirstCrash(listing, inputs, today, from + 1)
  }

  /** The table after the first `n` listed stocks were stored. */
  function Stored(m: map<Key, Item>, listing: seq<Listed>, inputs: seq<CrawlInput>, n: nat, today: string, now: string): map<Key, Item>
    requires n <= |listing|
  {
    if n == 0 then m
    else
      var before := Stored(m, listing, inputs, n - 1, today, now);
      match Payload(listing[n - 1], InputAt(inputs, n - 1), today)
      case Some(p) => CrawlerDb.PutMarket(before, p, now)
      case None => before
  }

  /** The body of the per-stock loop. `None` is the exception raised by
      `create_market_data`, which ends the run. */
  method CrawlStock(t: Table, s: Listed, input: CrawlInput, today: string, now: string) returns (result: Option<SymbolResult>)
    requires t.Valid()
    modifies t
    ensures t.Valid()
    ensures result.None? <==> Payload(s, input, today).Some? && input.storeFault
    ensures result.Some? ==> result.value == ResultOf(s, input, today)
    ensures t.items == match Payload(s, input, today)
                       case Some(p) => if input.storeFault then old(t.items) else CrawlerDb.PutMarket(old(t.items), p, now)
                       case None => old(t.items)
  {
    var quote := ParseQuote(input.quote);
    if quote.None? {
      return Some(SymbolResult(s.symbol, Failed));
    }
    var name := OrElse(input.name, s.name);
    if !Truthy(name) {
      return Some(SymbolResult(s.symbol, Failed));
    }
    var window := GetForeignerNetBuy(input.frgn);
    var netBuy := seq(WindowSize, j requires 0 <= j < WindowSize => window[j].netBuy);
    var dates := seq(WindowSize, j requires 0 <= j < WindowSize => if window[j].date != "" then DashDate(window[j].date) else "");
    assert netBuy == seq(WindowSize, j requires 0 <= j < WindowSize => SlotAt(input.frgn, j).netBuy);
    assert dates == seq(WindowSize, j requires 0 <= j < WindowSize => StoredDate(SlotAt(input.frgn, j).date));
    var data := MarketDataInput(s.symbol, today, quote.value.price, quote.value.change, quote.value.changeRate,
                                name.value, Some(netBuy), Some(dates));
    assert Payload(s, input, today) == Some(data);
    var stored := CrawlerDb.CreateMarketData(t, data, now, input.storeFault);
    if stored.Err? {
      return None;
    }
    result := Some(SymbolResult(s.symbol, Success));
  }

  /** The listing: the event's symbols when it names any, the scan otherwise. */
  method ListStocks(t: Table, symbols: Option<seq<string>>, names: seq<Option<string>>, scanFault: bool)
    returns (listing: seq<Listed>, ghost scanned: seq<Row>)
    ensures symbols.Some? && symbols.value != [] ==> listing == RequestedListing(symbols.value, names)
    ensures (symbols.None? || symbols.value == []) && scanFault ==> listing == []
    ensures (symbols.None? || symbols.value == []) && !scanFault ==>
              Lists(scanned, t.items, StockKeys(t.items)) && listing == ScanIntended(scanned)
  {
    if symbols.Some? && symbols.value != [] {
      listing := RequestedListing(symbols.value, names);
      scanned := [];
    } else {
      listing, scanned := GetStocksFromDb(t, scanFault);
    }
  }

  /** One more stock, when its write went through or nothing was written. */
  lemma StoredStep(m: map<Key, Item>, before: map<Key, Item>, listing: seq<Listed>, inputs: seq<CrawlInput>, i: nat, today: string, now: string)
    requires i < |listing| && before == Stored(m, listing, inputs, i, today, now)
    requires !Crashes(listing, inputs, today, i)
    ensures FirstCrash(listing, inputs, today, i) == FirstCrash(listing, inputs, today, i + 1)
    ensures Stored(m, listing, inputs, i + 1, today, now) ==
              match Payload(listing[i], InputAt(inputs, i), today)
              case Some(p) => CrawlerDb.PutMarket(before, p, now)
              case None => before
  {
  }

  /** The per-stock loop of `main` over a non-empty listing: every stock in order,
      until a store write raises. */
  method CrawlAll(t: Table, listing: seq<Listed>, inputs: seq<CrawlInput>, today: string, now: string)
    returns (reply: Reply)
    requires t.Valid()
    modifies t
    ensures t.Valid()
    ensures reply.Completed? <==> FirstCrash(listing, inputs, today, 0) == |listing|
    ensures reply.Completed? ==>
              && |reply.results| == |listing|
              && forall i :: 0 <= i < |listing| ==> reply.results[i] == ResultOf(listing[i], InputAt(inputs, i), today)
    ensures t.items == Stored(old(t.items), listing, inputs, FirstCrash(listing, inputs, today, 0), today, now)
  {
    var results: seq<SymbolResult> := [];
    for i := 0 to |listing|
      invariant FirstCrash(listing, inputs, today, 0) == FirstCrash(listing, inputs, today, i)
      invariant |results| == i
      invariant forall j :: 0 <= j < i ==> results[j] == ResultOf(listing[j], InputAt(inputs, j), today)
      invariant t.Valid()
      invariant t.items == Stored(old(t.items), listing, inputs, i, today, now)
    {
      ghost var before := t.items;
      var r := CrawlStock(t, listing[i], InputAt(inputs, i), today, now);
      if r.None? {
        assert FirstCrash(listing, inputs, today, i) == i;
        return Errored;
      }
      StoredStep(old(t.items), before, listing, inputs, i, today, now);
      results := results + [r.value];
    }
    reply := Completed(results);
  }

  /** `main`. `symbols` is the event's list (`None` without an event or without the
      key); `names` are the lookups made while building the listing from it;
      `scanFault` is a `ClientError` of the scan. */
  method Handle(t: Table, symbols: Option<seq<string>>, names: seq<Option<string>>, scanFault: bool,
              inputs: seq<CrawlInput>, today: string, now: string)
    returns (reply: Reply, listing: seq<Listed>, ghost scanned: seq<Row>)
    requires t.Valid()
    modifies t
    ensures t.Valid()
    ensures symbols.Some? && symbols.value != [] ==> listing == RequestedListing(symbols.value, names)
    ensures (symbols.None? || symbols.value == []) && scanFault ==> listing == []
    ensures (symbols.None? || symbols.value == []) && !scanFault ==>
              Lists(scanned, old(t.items), StockKeys(old(t.items))) && listing == ScanIntended(scanned)
    ensures reply.Completed? <==> FirstCrash(listing, inputs, today, 0) == |listing|
    ensures reply.Completed? ==>
              && |reply.results| == |listing|
              && forall i :: 0 <= i < |listing| ==> reply.results[i] == ResultOf(listing[i], InputAt(inputs, i), today)
    ensures t.items == Stored(old(t.items), listing, inputs, FirstCrash(listing, inputs, today, 0), today, now)
  {
    listing, scanned := ListStocks(t, symbols, names, scanFault);
    if listing == [] {
      return Completed([]), listing, scanned;
    }
    reply := CrawlAll(t, listing, inputs, today, now);
  }

  /** A stock is reported as a success exactly when its quote was read and a name
      was found, by the fresh lookup or else by the listing. Its payload carries the
      symbol, today, the parsed quote and that name, and writing it adds exactly the
      key of the symbol and today to the table. */
  lemma SuccessMeansStored(m: map<Key, Item>, s: Listed, input: CrawlInput, today: string, now: string)
    ensures ResultOf(s, input, today).symbol == s.symbol
    ensures ResultOf(s, input, today).status == Success <==>
              ParseQuote(input.quote).Some? && (Truthy(input.name) || Truthy(s.name))
    ensures ResultOf(s, input, today).status == Success <==> Payload(s, input, today).Some?
    ensures Payload(s, input, today).Some? ==>
              var p := Payload(s, input, today).value;
              var q := ParseQuote(input.quote).value;
              && p.symbol == s.symbol && p.date == today
              && p.price == q.price && p.change == q.change && p.changeRate == q.changeRate
              && p.stockName == (if Truthy(input.name) then input.name.value else s.name.value)
              && CrawlerDb.PutMarket(m, p, now).Keys == m.Keys + {MarketKey(s.symbol, today)}
  {
  }

  /** Every payload holds complete eight-slot lists, so the store's defaults for
      absent lists never apply to this path. */
  lemma PayloadWindow(s: Listed, input: CrawlInput, today: string)
    requires Payload(s, input, today).Some?
    ensures
      var p := Payload(s, input, today).value;
      && p.foreignerNetBuy.Some? && |p.foreignerNetBuy.value| == WindowSize
      && p.foreignerNetBuyDate.Some? && |p.foreignerNetBuyDate.value| == WindowSize
      && (forall i :: 0 <= i < WindowSize ==> p.foreignerNetBuy.value[i] == SlotAt(input.frgn, i).netBuy)
      && forall i :: 0 <= i < WindowSize ==> p.foreignerNetBuyDate.value[i] == DashDate(SlotAt(input.frgn, i).date)
  {
    var p := Payload(s, input, today).value;
    forall i | 0 <= i < WindowSize
      ensures p.foreignerNetBuyDate.value[i] == DashDate(SlotAt(input.frgn, i).date)
    {
      DashDateProperties(SlotAt(input.frgn, i).date);
    }
  }

  /** Storing never removes an item: every key present before the run is still
      there after it, and only MarketData keys are added. */
  lemma {:induction false} StoredKeys(m: map<Key, Item>, listing: seq<Listed>, inputs: seq<CrawlInput>, n: nat, today: string, now: string)
    requires n <= |listing|
    ensures m.Keys <= Stored(m, listing, inputs, n, today, now).Keys
    ensures forall k :: k in Stored(m, listing, inputs, n, today, now) && k !in m ==>
              exists i :: 0 <= i < n && k == MarketKey(listing[i].symbol, today)
  {
    if n > 0 {
      StoredKeys(m, listing, inputs, n - 1, today, now);
      var before := Stored(m, listing, inputs, n - 1, today, now);
      match Payload(listing[n - 1], InputAt(inputs, n - 1), today)
      case Some(p) =>
        assert MarketKey(p.symbol, p.date) == MarketKey(listing[n - 1].symbol, today);
      case None =>
    }
  }

  // ---------------------------------------------------------------------------
  // The floats handed to the store

  /** The inputs as db.py meets them: `create_market_data` gives boto3's resource a
      Python `float` for `changeRate`, which its serializer rejects with `TypeError`
      before any request is sent, so every write raises, whatever the service would
      have answered. Nothing else about a stock changes. */
  function FloatRejected(inputs: seq<CrawlInput>): (r: seq<CrawlInput>)
    ensures |r| == |inputs|
    ensures forall i :: 0 <= i < |r| ==> r[i].storeFault && r[i].(storeFault := inputs[i].storeFault) == inputs[i]
  {
    seq(|inputs|, i requires 0 <= i < |inputs| => inputs[i].(storeFault := true))
  }

  /** While no stock has a payload, the fold stores nothing. */
  lemma {:induction false} StoredNothing(m: map<Key, Item>, listing: seq<Listed>, inputs: seq<CrawlInput>, n: nat, today: string, now: string)
    requires n <= |listing|
    requires forall i :: 0 <= i < n ==> Payload(listing[i], InputAt(inputs, i), today).None?
    ensures Stored(m, listing, inputs, n, today, now) == m
  {
    if n > 0 {
      StoredNothing(m, listing, inputs, n - 1, today, now);
    }
  }

  /** As written, a run stops with 500 at the first listed stock that has a payload
      and has stored nothing; it completes only when no stock has one. */
  lemma FloatRejectionAsWritten(m: map<Key, Item>, listing: seq<Listed>, inputs: seq<CrawlInput>, today: string, now: string)
    ensures var n := FirstCrash(listing, FloatRejected(inputs), today, 0);
            && (n == |listing| <==> forall i :: 0 <= i < |listing| ==> Payload(listing[i], InputAt(inputs, i), today).None?)
            && (n < |listing| ==> Payload(listing[n], InputAt(inputs, n), today).Some?)
            && Stored(m, listing, FloatRejected(inputs), n, today, now) == m
  {
    var f := FloatRejected(inputs);
    forall i | 0 <= i < |listing|
      ensures Payload(listing[i], InputAt(f, i), today) == Payload(listing[i], InputAt(inputs, i), today)
      ensures Payload(listing[i], InputAt(f, i), today).Some? ==> Crashes(listing, f, today, i)
    {
      if i < |inputs| {
        assert InputAt(f, i).(storeFault := inputs[i].storeFault) == InputAt(inputs, i);
      }
    }
    var n := FirstCrash(listing, f, today, 0);
    StoredNothing(m, listing, f, n, today, now);
  }

  /** The fold never loses a key as it goes on. */
  lemma {:induction false} StoredGrows(m: map<Key, Item>, listing: seq<Listed>, inputs: seq<CrawlInput>, i: nat, n: nat, today: string, now: string)
    requires i <= n <= |listing|
    ensures Stored(m, listing, inputs, i, today, now).Keys <= Stored(m, listing, inputs, n, today, now).Keys
    decreases n
  {
    if n > i {
      StoredGrows(m, listing, inputs, i, n - 1, today, now);
    }
  }

  /** With items the serializer accepts, a run whose writes all go through
      completes, and every stock that has a payload is stored under its symbol and
      today. */
  lemma FaultFreeRunStoresAll(m: map<Key, Item>, listing: seq<Listed>, inputs: seq<CrawlInput>, today: string, now: string)
    requires forall i :: 0 <= i < |inputs| ==> !inputs[i].storeFault
    ensures FirstCrash(listing, inputs, today, 0) == |listing|
    ensures forall i :: 0 <= i < |listing| && Payload(listing[i], InputAt(inputs, i), today).Some? ==>
              MarketKey(listing[i].symbol, today) in Stored(m, listing, inputs, |listing|, today, now)
  {
    forall i | 0 <= i < |listing| && Payload(listing[i], InputAt(inputs, i), today).Some?
      ensures MarketKey(listing[i].symbol, today) in Stored(m, listing, inputs, |listing|, today, now)
    {
      StoredGrows(m, listing, inputs, i + 1, |listing|, today, now);
    }
  }
}
