/** The API server's route handlers (api-server/app.js), each taking the caller's
    user id from the authorizer's principal and everything the outside world
    supplies as an argument: the Korea-time clock, today's date, the name scraped
    from the quote page, and whether the crawler invocation goes through. A handler
    is a method over the shared table; the reply is a value. */
module Api {
  import opened Common
  import opened Table
  import opened DynamoDb
  import opened MarketGate

  const CrawlerFunction: string := "stock-crawler-dev-crawler"
  const UnknownName: string := "Unknown"
  const ShownIndex: string := "KOSPI"

  // ---------------------------------------------------------------------------
  // What a well-keyed table stores under each key shape

  lemma PrefixInjective(p: string, a: string, b: string)
    requires p + a == p + b
    ensures a == b
  {
    assert a == (p + a)[|p|..];
    assert b == (p + b)[|p|..];
  }

  /** The item under a market-data key is that symbol's market data for that day. */
  lemma MarketKeyHoldsMarket(m: map<Key, Item>, symbol: string, date: string)
    requires forall k :: k in m ==> Fits(k, m[k])
    requires MarketKey(symbol, date) in m
    ensures m[MarketKey(symbol, date)].MarketItem?
    ensures m[MarketKey(symbol, date)].market.symbol == symbol && m[MarketKey(symbol, date)].market.date == date
  {
    var k := MarketKey(symbol, date);
    assert k.0[0] == 'S' && k.1[0] == 'M';
    if m[k].MarketItem? {
      PrefixInjective("STOCK#", m[k].market.symbol, symbol);
      PrefixInjective("MARKETDATA#", m[k].market.date, date);
    }
  }

  /** The item under an index key is that index's value for that day. */
  lemma IndexKeyHoldsIndex(m: map<Key, Item>, name: string, date: string)
    requires forall k :: k in m ==> Fits(k, m[k])
    requires IndexKey(name, date) in m
    ensures m[IndexKey(name, date)].IndexItem?
    ensures m[IndexKey(name, date)].index.name == name && m[IndexKey(name, date)].index.date == date
  {
    var k := IndexKey(name, date);
    assert k.0[0] == 'I' && k.1[0] == 'D';
    if m[k].IndexItem? {
      PrefixInjective("INDEX#", m[k].index.name, name);
      PrefixInjective("DATA#", m[k].index.date, date);
    }
  }

  // ---------------------------------------------------------------------------
  // GET /stocks

  predicate IsStockRow(row: Row)
  {
    StartsWith(row.key.1, "STOCK#")
  }

  /** `items.filter(item => item.SK.startsWith('STOCK#'))`. */
  function StockRows(rows: seq<Row>): (r: seq<Row>)
    ensures forall x :: x in r <==> x in rows && IsStockRow(x)
    ensures |r| <= |rows|
  {
    if rows == [] then []
    else (if IsStockRow(rows[0]) then [rows[0]] else []) + StockRows(rows[1..])
  }

  predicate DistinctKeys(rows: seq<Row>)
  {
    forall i, j :: 0 <= i < j < |rows| ==> rows[i].key != rows[j].key
  }

  lemma {:induction false} StockRowsDistinct(rows: seq<Row>)
    requires DistinctKeys(rows)
    ensures DistinctKeys(StockRows(rows))
  {
    if rows != [] {
      var tail := rows[1..];
      assert DistinctKeys(tail) by {
        forall i, j | 0 <= i < j < |tail| ensures tail[i].key != tail[j].key {
          assert tail[i] == rows[i + 1] && tail[j] == rows[j + 1];
        }
      }
      StockRowsDistinct(tail);
      if IsStockRow(rows[0]) {
        var r := StockRows(rows);
        forall j | 0 < j < |r| ensures r[0].key != r[j].key {
          assert r[j] in StockRows(tail);
          var l :| 0 <= l < |tail| && tail[l] == r[j];
          assert rows[l + 1] == r[j];
        }
      }
    }
  }

  /** The user's watch-list keys: the user partition's keys under 'STOCK#'. */
  ghost function UserStockKeys(m: map<Key, Item>, userId: string): set<Key>
  {
    set k | k in m && k.0 == UserPk(userId) && StartsWith(k.1, "STOCK#")
  }

  /** Filtering the partition by sort key lists the user's watch list, and in a
      well-keyed table every listed item is one of that user's entries. */
  lemma WatchListRows(rows: seq<Row>, m: map<Key, Item>, userId: string)
    requires forall k :: k in m ==> Fits(k, m[k])
    requires Lists(rows, m, UserPartition(m, userId))
    ensures Lists(StockRows(rows), m, UserStockKeys(m, userId))
    ensures forall i :: 0 <= i < |StockRows(rows)| ==>
              StockRows(rows)[i].item.StockItem? && StockRows(rows)[i].item.stock.userId == userId
  {
    StockRowsDistinct(rows);
    WatchListSound(rows, m, userId);
    WatchListComplete(rows, m, userId);
  }

  /** Every row the filter keeps is one of the user's watch-list entries. */
  lemma WatchListSound(rows: seq<Row>, m: map<Key, Item>, userId: string)
    requires forall k :: k in m ==> Fits(k, m[k])
    requires forall i :: 0 <= i < |rows| ==>
               rows[i].key in UserPartition(m, userId) && rows[i].key in m && rows[i].item == m[rows[i].key]
    ensures forall i :: 0 <= i < |StockRows(rows)| ==>
              var x := StockRows(rows)[i];
              && x.key in UserStockKeys(m, userId) && x.key in m && x.item == m[x.key]
              && x.item.StockItem? && x.item.stock.userId == userId
  {
    var r := StockRows(rows);
    forall i | 0 <= i < |r|
      ensures r[i].key in UserStockKeys(m, userId) && r[i].key in m && r[i].item == m[r[i].key]
      ensures r[i].item.StockItem? && r[i].item.stock.userId == userId
    {
      assert r[i] in rows;
      var j :| 0 <= j < |rows| && rows[j] == r[i];
      WatchListRow(r[i], m, userId);
    }
  }

  /** Every watch-list key of the partition survives the filter. */
  lemma WatchListComplete(rows: seq<Row>, m: map<Key, Item>, userId: string)
    requires UserPartition(m, userId) <= RowKeys(rows)
    ensures UserStockKeys(m, userId) <= RowKeys(StockRows(rows))
  {
    var r := StockRows(rows);
    forall k | k in UserStockKeys(m, userId) ensures k in RowKeys(r) {
      assert k in UserPartition(m, userId);
      var j :| 0 <= j < |rows| && rows[j].key == k;
      assert rows[j] in r;
      var l :| 0 <= l < |r| && r[l] == rows[j];
    }
  }

  /** One row of the user's partition under 'STOCK#' is one of the user's
      watch-list entries. */
  lemma WatchListRow(x: Row, m: map<Key, Item>, userId: string)
    requires forall k :: k in m ==> Fits(k, m[k])
    requires x.key in UserPartition(m, userId) && x.item == m[x.key] && IsStockRow(x)
    ensures x.key in UserStockKeys(m, userId)
    ensures x.item.StockItem? && x.item.stock.userId == userId
  {
    UserPartitionContents(m, userId);
    assert ProfileSk[0] == 'P';
  }

  datatype StockSummary = StockSummary(symbol: string, name: string, userId: string)

  /** The summary of a row under 'STOCK#' (in a well-keyed table always a
      watch-list entry; any other item would show no fields). */
  function Summary(it: Item): StockSummary
  {
    match it
    case StockItem(e) => StockSummary(e.symbol, e.name, e.userId)
    case _ => StockSummary("", "", "")
  }

  /** `GET /stocks`: the caller's watch list, one summary per entry. */
  method GetStocks(t: Table, userId: string) returns (r: seq<StockSummary>, ghost rows: seq<Row>)
    requires t.Valid()
    ensures Lists(rows, t.items, UserStockKeys(t.items, userId))
    ensures |r| == |rows|
    ensures forall i :: 0 <= i < |rows| ==>
              && rows[i].item.StockItem? && rows[i].item.stock.userId == userId
              && r[i] == StockSummary(rows[i].item.stock.symbol, rows[i].item.stock.name, userId)
  {
    var items := GetUserWithStocks(t, userId);
    WatchListRows(items, t.items, userId);
    var stocks := StockRows(items);
    r := seq(|stocks|, i requires 0 <= i < |stocks| => Summary(stocks[i].item));
    rows := stocks;
  }

  // ---------------------------------------------------------------------------
  // The net-buy projection

  datatype NetBuyEntry = NetBuyEntry(date: string, netBuy: int)

  /** `foreignerNetBuy.map((netBuy, i) => ({ date: foreignerNetBuyDate[i], net_buy }))`;
      a date past the end of the date list is `undefined`. */
  function Paired(netBuy: seq<int>, dates: seq<string>): (p: seq<(Option<string>, int)>)
    ensures |p| == |netBuy|
  {
    seq(|netBuy|, i requires 0 <= i < |netBuy| => (if i < |dates| then Some(dates[i]) else None, netBuy[i]))
  }

  /** `.filter(item => item.date)`. */
  function Dated(p: seq<(Option<string>, int)>): (r: seq<NetBuyEntry>)
    ensures |r| <= |p|
    ensures forall k :: 0 <= k < |r| ==> r[k].date != ""
  {
    if p == [] then []
    else (if Truthy(p[0].0) then [NetBuyEntry(p[0].0.value, p[0].1)] else []) + Dated(p[1..])
  }

  function NetBuyView(netBuy: seq<int>, dates: seq<string>): seq<NetBuyEntry>
  {
    Dated(Paired(netBuy, dates))
  }

  /** The entries of `Dated(p)` are the dated pairs of `p`, in order: there are
      strictly increasing positions, covering every dated pair, that they come
      from. */
  lemma {:induction false} DatedPositions(p: seq<(Option<string>, int)>) returns (idx: seq<nat>)
    ensures |idx| == |Dated(p)|
    ensures forall k :: 0 <= k < |idx| ==>
              idx[k] < |p| && Truthy(p[idx[k]].0) && Dated(p)[k] == NetBuyEntry(p[idx[k]].0.value, p[idx[k]].1)
    ensures forall k, l :: 0 <= k < l < |idx| ==> idx[k] < idx[l]
    ensures forall i :: 0 <= i < |p| && Truthy(p[i].0) ==> i in idx
  {
    if p == [] {
      return [];
    }
    var tail := p[1..];
    var rest := DatedPositions(tail);
    var h := if Truthy(p[0].0) then 1 else 0;
    idx := seq(h + |rest|, k requires 0 <= k < h + |rest| => if k < h then 0 else rest[k - h] + 1);
    DatedStepEntries(p, tail, rest, idx, h);
    DatedStepOrder(rest, idx, h);
    DatedStepComplete(p, tail, rest, idx, h);
  }

  /** The order of one step of `DatedPositions`. */
  lemma DatedStepOrder(rest: seq<nat>, idx: seq<nat>, h: nat)
    requires h <= 1
    requires forall k, l :: 0 <= k < l < |rest| ==> rest[k] < rest[l]
    requires |idx| == h + |rest|
    requires forall k :: 0 <= k < |idx| ==> idx[k] == if k < h then 0 else rest[k - h] + 1
    ensures forall k, l :: 0 <= k < l < |idx| ==> idx[k] < idx[l]
  {
    forall k, l | 0 <= k < l < |idx| ensures idx[k] < idx[l] {
      if k >= h {
        assert rest[k - h] < rest[l - h];
      }
    }
  }

  /** The coverage of one step of `DatedPositions`. */
  lemma DatedStepComplete(p: seq<(Option<string>, int)>, tail: seq<(Option<string>, int)>, rest: seq<nat>, idx: seq<nat>, h: nat)
    requires p != [] && tail == p[1..] && h == (if Truthy(p[0].0) then 1 else 0)
    requires forall i :: 0 <= i < |tail| && Truthy(tail[i].0) ==> i in rest
    requires |idx| == h + |rest|
    requires forall k :: 0 <= k < |idx| ==> idx[k] == if k < h then 0 else rest[k - h] + 1
    ensures forall i :: 0 <= i < |p| && Truthy(p[i].0) ==> i in idx
  {
    forall i | 0 <= i < |p| && Truthy(p[i].0) ensures i in idx {
      if i > 0 {
        var j := i - 1;
        assert tail[j] == p[i];
        assert j in rest;
        var k :| 0 <= k < |rest| && rest[k] == j;
        assert idx[k + h] == i;
      } else {
        assert idx[0] == 0;
      }
    }
  }

  /** The entries of one step of `DatedPositions`: the tail's positions shifted by
      one, preceded by 0 when the head is dated. */
  lemma DatedStepEntries(p: seq<(Option<string>, int)>, tail: seq<(Option<string>, int)>, rest: seq<nat>, idx: seq<nat>, h: nat)
    requires p != [] && tail == p[1..] && h == (if Truthy(p[0].0) then 1 else 0)
    requires |rest| == |Dated(tail)|
    requires forall k :: 0 <= k < |rest| ==>
               rest[k] < |tail| && Truthy(tail[rest[k]].0) && Dated(tail)[k] == NetBuyEntry(tail[rest[k]].0.value, tail[rest[k]].1)
    requires |idx| == h + |rest|
    requires forall k :: 0 <= k < |idx| ==> idx[k] == if k < h then 0 else rest[k - h] + 1
    ensures |idx| == |Dated(p)|
    ensures forall k :: 0 <= k < |idx| ==>
              idx[k] < |p| && Truthy(p[idx[k]].0) && Dated(p)[k] == NetBuyEntry(p[idx[k]].0.value, p[idx[k]].1)
  {
    var pre := if h == 1 then [NetBuyEntry(p[0].0.value, p[0].1)] else [];
    assert Dated(p) == pre + Dated(tail);
    forall k | 0 <= k < |idx|
      ensures idx[k] < |p| && Truthy(p[idx[k]].0) && Dated(p)[k] == NetBuyEntry(p[idx[k]].0.value, p[idx[k]].1)
    {
      if k >= h {
        DatedShifted(p, tail, Dated(tail), pre, Dated(p), rest[k - h], k, h);
      }
    }
  }

  /** One shifted entry: entry `k - h` of the tail's projection, at tail position
      `j`, is entry `k` of the whole projection, at position `j + 1`. */
  lemma DatedShifted(p: seq<(Option<string>, int)>, tail: seq<(Option<string>, int)>, dt: seq<NetBuyEntry>,
                     pre: seq<NetBuyEntry>, d: seq<NetBuyEntry>, j: nat, k: nat, h: nat)
    requires p != [] && tail == p[1..] && |pre| == h && d == pre + dt && h <= k < |d|
    requires j < |tail| && Truthy(tail[j].0) && dt[k - h] == NetBuyEntry(tail[j].0.value, tail[j].1)
    ensures j + 1 < |p| && Truthy(p[j + 1].0) && d[k] == NetBuyEntry(p[j + 1].0.value, p[j + 1].1)
  {
    assert tail[j] == p[j + 1];
  }

  /** The projection keeps, in their stored order, exactly the slots whose date is
      present and non-empty, each with its own volume. */
  lemma NetBuyViewPositions(netBuy: seq<int>, dates: seq<string>) returns (idx: seq<nat>)
    ensures |idx| == |NetBuyView(netBuy, dates)| <= |netBuy|
    ensures forall k :: 0 <= k < |idx| ==>
              && idx[k] < |netBuy| && idx[k] < |dates| && dates[idx[k]] != ""
              && NetBuyView(netBuy, dates)[k] == NetBuyEntry(dates[idx[k]], netBuy[idx[k]])
    ensures forall k, l :: 0 <= k < l < |idx| ==> idx[k] < idx[l]
    ensures forall i :: 0 <= i < |netBuy| && i < |dates| && dates[i] != "" ==> i in idx
  {
    var p := Paired(netBuy, dates);
    idx := DatedPositions(p);
    forall i | 0 <= i < |netBuy| && i < |dates| && dates[i] != "" ensures i in idx {
      assert Truthy(p[i].0);
    }
  }

  lemma NetBuyViewExample()
    ensures NetBuyView([5, -3, 7], ["2025-08-01", "", "2025-07-30"])
            == [NetBuyEntry("2025-08-01", 5), NetBuyEntry("2025-07-30", 7)]
    ensures NetBuyView([1, 2], ["2025-08-01"]) == [NetBuyEntry("2025-08-01", 1)]
  {
    var p := Paired([5, -3, 7], ["2025-08-01", "", "2025-07-30"]);
    assert p == [(Some("2025-08-01"), 5), (Some(""), -3), (Some("2025-07-30"), 7)];
    assert p[1..][1..] == [(Some("2025-07-30"), 7)];
    var q := Paired([1, 2], ["2025-08-01"]);
    assert q == [(Some("2025-08-01"), 1), (None, 2)];
    assert q[1..] == [(None, 2)];
  }

  // ---------------------------------------------------------------------------
  // GET /stocks/marketdata

  datatype MarketView = MarketView(price: int, change: int, changeRate: real, date: string, foreignerNetBuy: seq<NetBuyEntry>)

  datatype StockView = StockView(symbol: string, name: string, userId: string, marketData: Option<MarketView>)

  function ViewOf(d: MarketData): MarketView
  {
    MarketView(d.price, d.change, d.changeRate, d.date, NetBuyView(d.foreignerNetBuy, d.foreignerNetBuyDate))
  }

  /** `GET /stocks/marketdata`: one view per watch-list entry, carrying today's
      market data of its symbol when there is any and null otherwise. */
  method GetStocksMarketData(t: Table, userId: string, today: string) returns (r: seq<StockView>, ghost rows: seq<Row>)
    requires t.Valid()
    ensures Lists(rows, t.items, UserStockKeys(t.items, userId))
    ensures |r| == |rows|
    ensures forall i :: 0 <= i < |rows| ==>
              && rows[i].item.StockItem? && rows[i].item.stock.userId == userId
              && r[i].symbol == rows[i].item.stock.symbol && r[i].name == rows[i].item.stock.name && r[i].userId == userId
              && (r[i].marketData.None? <==> MarketKey(r[i].symbol, today) !in t.items)
              && (r[i].marketData.Some? ==>
                    && t.items[MarketKey(r[i].symbol, today)].MarketItem?
                    && r[i].marketData.value == ViewOf(t.items[MarketKey(r[i].symbol, today)].market))
  {
    var items := GetUserWithStocks(t, userId);
    WatchListRows(items, t.items, userId);
    var stocks := StockRows(items);
    r := [];
    for i := 0 to |stocks|
      invariant |r| == i
      invariant forall j :: 0 <= j < i ==>
                  && r[j].symbol == stocks[j].item.stock.symbol && r[j].name == stocks[j].item.stock.name && r[j].userId == userId
                  && (r[j].marketData.None? <==> MarketKey(r[j].symbol, today) !in t.items)
                  && (r[j].marketData.Some? ==>
                        && t.items[MarketKey(r[j].symbol, today)].MarketItem?
                        && r[j].marketData.value == ViewOf(t.items[MarketKey(r[j].symbol, today)].market))
    {
      var stock := stocks[i].item.stock;
      var found := GetMarketData(t, stock.symbol, today);
      var view: Option<MarketView> := None;
      if |found| > 0 {
        MarketKeyHoldsMarket(t.items, stock.symbol, today);
        view := Some(ViewOf(found[0].item.market));
      }
      r := r + [StockView(stock.symbol, stock.name, stock.userId, view)];
    }
    rows := stocks;
  }

  // ---------------------------------------------------------------------------
  // GET /stock/:symbol/foreign

  datatype ForeignView = ForeignView(
    symbol: string,
    date: string,
    price: int,
    change: int,
    changeRate: real,
    stockName: string,
    foreignerNetBuy: seq<NetBuyEntry>)

  /** 200 with the view, or 404. */
  datatype ForeignReply = ForeignFound(view: ForeignView) | ForeignNotFound

  function ForeignViewOf(d: MarketData): ForeignView
  {
    ForeignView(d.symbol, d.date, d.price, d.change, d.changeRate, d.stockName,
                NetBuyView(d.foreignerNetBuy, d.foreignerNetBuyDate))
  }

  /** `GET /stock/:symbol/foreign`: today's market data of the symbol, or 404 when
      none was stored today. */
  method GetForeign(t: Table, symbol: string, today: string) returns (reply: ForeignReply)
    requires t.Valid()
    ensures reply.ForeignFound? <==> MarketKey(symbol, today) in t.items
    ensures reply.ForeignFound? ==>
              && t.items[MarketKey(symbol, today)].MarketItem?
              && reply.view == ForeignViewOf(t.items[MarketKey(symbol, today)].market)
              && reply.view.symbol == symbol && reply.view.date == today
  {
    var found := GetMarketData(t, symbol, today);
    if |found| > 0 {
      MarketKeyHoldsMarket(t.items, symbol, today);
      reply := ForeignFound(ForeignViewOf(found[0].item.market));
    } else {
      reply := ForeignNotFound;
    }
  }

  // ---------------------------------------------------------------------------
  // Crawler invocation: POST /stock/add and POST /crawler/trigger

  /** An asynchronous invocation of the crawler function; `symbols` is the payload's
      list, `None` for the empty payload `{}`. */
  datatype Invocation = Invocation(functionName: string, symbols: Option<seq<string>>)

  datatype AddReply = AddReply(status: int, stockName: Option<string>, invocation: Option<Invocation>)

  /** `$(...).text().trim() || 'Unknown'`. */
  function ScrapedName(text: string): (name: string)
    ensures name != ""
    ensures text != "" ==> name == text
  {
    OrDefault(Some(text), UnknownName)
  }

  /** `POST /stock/add`. `page` is the scraped name text, `None` when the request
      for the quote page fails. */
  method AddStock(t: Table, userId: string, symbol: Option<string>, page: Option<string>,
                  clock: Clock, invokeOk: bool, today: string, now: string) returns (reply: AddReply)
    requires t.Valid()
    modifies t
    ensures t.Valid()
    ensures !Truthy(symbol) ==> reply == AddReply(400, None, None) && t.items == old(t.items)
    ensures Truthy(symbol) && page.None? ==> reply == AddReply(500, None, None) && t.items == old(t.items)
    ensures Truthy(symbol) && page.Some? && MarketKey(symbol.value, today) in old(t.items) ==>
              reply == AddReply(200, Some(ScrapedName(page.value)), None) && t.items == old(t.items)
    ensures Truthy(symbol) && page.Some? && MarketKey(symbol.value, today) !in old(t.items) ==>
              && t.items == old(t.items)[(UserPk(userId), StockSk(symbol.value)) :=
                                          StockItem(StockEntry(symbol.value, ScrapedName(page.value), userId, now))]
              && reply.invocation == (if IsMarketOpen(clock) then Some(Invocation(CrawlerFunction, Some([symbol.value]))) else None)
              && reply.status == (if IsMarketOpen(clock) && !invokeOk then 500 else 201)
              && reply.stockName == (if reply.status == 201 then Some(ScrapedName(page.value)) else None)
  {
    if !Truthy(symbol) {
      return AddReply(400, None, None);
    }
    if page.None? {
      return AddReply(500, None, None);
    }
    var name := ScrapedName(page.value);
    var existing := GetMarketData(t, symbol.value, today);
    if |existing| > 0 {
      return AddReply(200, Some(name), None);
    }
    CreateStock(t, userId, symbol.value, name, now);
    var invocation: Option<Invocation> := None;
    if IsMarketOpen(clock) {
      invocation := Some(Invocation(CrawlerFunction, Some([symbol.value])));
      if !invokeOk {
        return AddReply(500, None, invocation);
      }
    }
    reply := AddReply(201, Some(name), invocation);
  }

  /** Re-adding a symbol whose market data is not in yet today replaces the entry,
      name and timestamp included: `createStock` does not check for it. */
  lemma ReAddReplaces(m: map<Key, Item>, userId: string, symbol: string, first: string, second: string, t1: string, t2: string)
    ensures var k := (UserPk(userId), StockSk(symbol));
            m[k := StockItem(StockEntry(symbol, first, userId, t1))][k := StockItem(StockEntry(symbol, second, userId, t2))]
            == m[k := StockItem(StockEntry(symbol, second, userId, t2))]
  {
  }

  datatype TriggerReply = TriggerReply(status: int, invocation: Option<Invocation>)

  /** `POST /crawler/trigger`: outside market hours 400 and no invocation;
      otherwise the body's `symbols` (when truthy; an empty array is truthy) is
      passed on, and the reply is 200, or 500 when the invocation fails. */
  function TriggerCrawler(clock: Clock, symbols: Option<seq<string>>, invokeOk: bool): (r: TriggerReply)
    ensures r.invocation.Some? <==> IsMarketOpen(clock)
    ensures r.status == 400 <==> !IsMarketOpen(clock)
    ensures r.status == 200 <==> IsMarketOpen(clock) && invokeOk
    ensures IsMarketOpen(clock) && !invokeOk ==> r.status == 500
    ensures r.invocation.Some? ==> r.invocation.value == Invocation(CrawlerFunction, symbols)
  {
    if !IsMarketOpen(clock) then TriggerReply(400, None)
    else TriggerReply(if invokeOk then 200 else 500, Some(Invocation(CrawlerFunction, symbols)))
  }

  /** The crawler is only ever invoked on a weekday between 09:00 and 16:00, both
      included, by either route. */
  lemma InvocationsInMarketHours(clock: Clock, symbols: Option<seq<string>>, invokeOk: bool)
    requires 0 <= clock.hour < 24 && 0 <= clock.minute < 60
    ensures TriggerCrawler(clock, symbols, invokeOk).invocation.Some? ==>
              clock.day != 0 && clock.day != 6 && 9 * 60 <= clock.hour * 60 + clock.minute <= 16 * 60
  {
    HhmmIsTimeOfDay(clock);
  }

  /** Both routes apply the same gate: adding a symbol invokes the crawler with
      exactly the payload a trigger for that one symbol would send. */
  lemma AddAndTriggerAgree(clock: Clock, symbol: string, invokeOk: bool)
    ensures TriggerCrawler(clock, Some([symbol]), invokeOk).invocation
            == (if IsMarketOpen(clock) then Some(Invocation(CrawlerFunction, Some([symbol]))) else None)
  {
  }

  // ---------------------------------------------------------------------------
  // GET /indices

  datatype IndexView = IndexView(name: string, value: real, change: real, changeRate: real, isUp: bool)

  function IndexViewOf(x: IndexData): (v: IndexView)
    ensures v.isUp <==> x.change > 0.0
  {
    IndexView(x.name, x.value, x.change, x.changeRate, x.change > 0.0)
  }

  /** `GET /indices`: only KOSPI's value for today, at most one view. */
  method GetIndices(t: Table, today: string) returns (r: seq<IndexView>)
    requires t.Valid()
    ensures |r| <= 1
    ensures |r| == 1 <==> IndexKey(ShownIndex, today) in t.items
    ensures |r| == 1 ==>
              && t.items[IndexKey(ShownIndex, today)].IndexItem?
              && r[0] == IndexViewOf(t.items[IndexKey(ShownIndex, today)].index)
              && r[0].name == ShownIndex
              && (r[0].isUp <==> t.items[IndexKey(ShownIndex, today)].index.change > 0.0)
  {
    var found := GetIndexData(t, ShownIndex, today);
    if |found| > 0 {
      IndexKeyHoldsIndex(t.items, ShownIndex, today);
      r := [IndexViewOf(found[0].item.index)];
    } else {
      r := [];
    }
  }

  lemma FlatIsNotUp(x: IndexData)
    requires x.change == 0.0
    ensures !IndexViewOf(x).isUp
  {
  }

  // ---------------------------------------------------------------------------
  // DELETE /stock/:symbol

  /** The store effect the route is written to have: the caller's entry for the
      symbol goes, and so does every item in the partition `STOCK#<symbol>`. */
  function DeleteIntended(m: map<Key, Item>, userId: string, symbol: string): map<Key, Item>
  {
    map k | k in m && k != (UserPk(userId), StockSk(symbol)) && k.0 != StockPk(symbol) :: m[k]
  }

  /** The route as written: the first statement reads the unbound `dynamoDb`, so
      every request answers 500 and leaves the store as it was. */
  function DeleteAsWritten(m: map<Key, Item>, userId: string, symbol: string): (int, map<Key, Item>)
  {
    (500, m)
  }

  /** The route with the data-access client in scope: delete the entry, query the
      symbol's partition, delete each item found. */
  method DeleteStock(t: Table, userId: string, symbol: string) returns (status: int)
    requires t.Valid()
    modifies t
    ensures t.Valid()
    ensures status == 200
    ensures t.items == DeleteIntended(old(t.items), userId, symbol)
  {
    t.Delete((UserPk(userId), StockSk(symbol)));
    var rows := t.QueryPk(StockPk(symbol));
    ghost var m1 := t.items;
    DeleteRows(t, rows);
    PartitionRemoved(old(t.items), m1, rows, userId, symbol);
    status := 200;
  }

  /** The loop over the queried items: each is deleted by its key. */
  method DeleteRows(t: Table, rows: seq<Row>)
    requires t.Valid()
    modifies t
    ensures t.Valid()
    ensures t.items == old(t.items) - RowKeys(rows)
  {
    for i := 0 to |rows|
      invariant t.Valid()
      invariant t.items == old(t.items) - RowKeys(rows[..i])
    {
      RowKeysAppend(rows[..i], rows[i]);
      assert rows[..i + 1] == rows[..i] + [rows[i]];
      t.Delete(rows[i].key);
    }
    assert rows[..|rows|] == rows;
  }

  /** Deleting the entry and then every key of the partition's listing is the
      intended delete. */
  lemma PartitionRemoved(m: map<Key, Item>, m1: map<Key, Item>, rows: seq<Row>, userId: string, symbol: string)
    requires m1 == m - {(UserPk(userId), StockSk(symbol))}
    requires Lists(rows, m1, set k | k in m1 && k.0 == StockPk(symbol))
    ensures m1 - RowKeys(rows) == DeleteIntended(m, userId, symbol)
  {
    assert forall k :: k in RowKeys(rows) ==> k.0 == StockPk(symbol);
  }

  /** What the intended delete removes, and what it keeps: other users' entries for
      the same symbol survive, as does everything outside the symbol's partition. */
  lemma DeleteScope(m: map<Key, Item>, userId: string, symbol: string, other: string)
    requires other != userId
    ensures (UserPk(userId), StockSk(symbol)) !in DeleteIntended(m, userId, symbol)
    ensures forall k :: k in DeleteIntended(m, userId, symbol) ==> k.0 != StockPk(symbol)
    ensures (UserPk(other), StockSk(symbol)) in m ==>
              (UserPk(other), StockSk(symbol)) in DeleteIntended(m, userId, symbol)
    ensures forall k :: k in m && k != (UserPk(userId), StockSk(symbol)) && k.0 != StockPk(symbol) ==>
              k in DeleteIntended(m, userId, symbol) && DeleteIntended(m, userId, symbol)[k] == m[k]
  {
    if UserPk(other) == UserPk(userId) {
      UserPkInjective(other, userId);
    }
    assert UserPk(other)[0] == 'U' && StockPk(symbol)[0] == 'S';
  }

  /** The divergence: whenever the caller has the symbol on the watch list, the
      route as written keeps it (and answers 500) while the intended route removes
      it. */
  lemma DeleteDiverges(m: map<Key, Item>, userId: string, symbol: string)
    requires (UserPk(userId), StockSk(symbol)) in m
    ensures DeleteAsWritten(m, userId, symbol).0 == 500
    ensures (UserPk(userId), StockSk(symbol)) in DeleteAsWritten(m, userId, symbol).1
    ensures DeleteAsWritten(m, userId, symbol).1 != DeleteIntended(m, userId, symbol)
  {
    assert (UserPk(userId), StockSk(symbol)) !in DeleteIntended(m, userId, symbol);
  }

  // ---------------------------------------------------------------------------
  // POST /auth/kakao/callback

  /** The JWT payload; the token itself (secret, expiry) is outside the model. */
  datatype Claims = Claims(userId: string, kakaoId: string, nickname: Option<string>)

  datatype UserView = UserView(kakaoId: Option<string>, nickname: Option<string>, email: Option<string>)

  /** 400 without a kakao id, 500 after an exception, 200 with a token. */
  datatype LoginReply = MissingKakaoId | LoginFailed | LoggedIn(claims: Claims, user: UserView)

  function LoginStatus(r: LoginReply): int
  {
    match r
    case MissingKakaoId => 400
    case LoginFailed => 500
    case LoggedIn(_, _) => 200
  }

  function ProfileKey(kakaoId: string): Key
  {
    (UserPk(kakaoId), ProfileSk)
  }

  /** The returning user's update: nickname and email are replaced only by truthy
      new values, and both login timestamps are refreshed. */
  function MergeProfile(p: Profile, nickname: Option<string>, email: Option<string>, now: string): Profile
  {
    p.(nickname := OrDefault(nickname, p.nickname), email := OrElse(email, p.email),
       lastLoginAt := Some(now), updatedAt := now)
  }

  /** The new user's `createUser` argument. */
  function NewUser(kakaoId: string, nickname: Option<string>, email: Option<string>, now: string): UserInput
  {
    UserInput(Some(kakaoId), OrElse(email, None), Some(OrDefault(nickname, DefaultNickname)),
              Some(DefaultLoginType), Some(true), Some(now))
  }

  /** The merge keeps identity and history, takes each new value only when it is
      truthy, and repeating a login with the same values only moves the clock. */
  lemma MergeProfileMeaning(p: Profile, nickname: Option<string>, email: Option<string>, first: string, second: string)
    ensures var q := MergeProfile(p, nickname, email, first);
            && q.kakaoId == p.kakaoId && q.createdAt == p.createdAt
            && q.loginType == p.loginType && q.isActive == p.isActive
            && q.nickname == (if Truthy(nickname) then nickname.value else p.nickname)
            && q.email == (if Truthy(email) then email else p.email)
            && q.lastLoginAt == Some(first) && q.updatedAt == first
    ensures MergeProfile(MergeProfile(p, nickname, email, first), nickname, email, second)
            == MergeProfile(p, nickname, email, second)
  {
  }

  /** A new user gets the default nickname when none is given, the login type
      'kakao', an active account and today's login time, under the profile key of
      the kakao id. */
  lemma NewUserProfile(kakaoId: string, nickname: Option<string>, email: Option<string>, now: string)
    requires kakaoId != ""
    ensures UserKey(NewUser(kakaoId, nickname, email, now)) == ProfileKey(kakaoId)
    ensures var p := NewProfile(NewUser(kakaoId, nickname, email, now), now);
            && p.kakaoId == Some(kakaoId) && p.nickname == OrDefault(nickname, DefaultNickname)
            && p.email == OrElse(email, None) && p.loginType == DefaultLoginType
            && p.isActive && (now != "" ==> p.lastLoginAt == Some(now))
  {
  }

  /** `POST /auth/kakao/callback` with the data-access client in scope. A returning
      user is found through the kakao-id index; the token and the reply show the
      profile as it was before this login's update. A new user's reply echoes what
      `createUser` returns, which has no nickname. */
  method Login(t: Table, kakaoId: Option<string>, nickname: Option<string>, email: Option<string>, now: string)
    returns (reply: LoginReply)
    requires t.Valid()
    modifies t
    ensures t.Valid()
    ensures !Truthy(kakaoId) ==> reply == MissingKakaoId && t.items == old(t.items)
    ensures Truthy(kakaoId) && ProfileKey(kakaoId.value) in old(t.items) && HasKakaoId(old(t.items)[ProfileKey(kakaoId.value)], kakaoId.value) ==>
              var p := old(t.items)[ProfileKey(kakaoId.value)].user;
              && t.items == old(t.items)[ProfileKey(kakaoId.value) := UserItem(MergeProfile(p, nickname, email, now))]
              && reply == LoggedIn(Claims(kakaoId.value, kakaoId.value, Some(p.nickname)), UserView(p.kakaoId, Some(p.nickname), p.email))
    ensures Truthy(kakaoId) && ProfileKey(kakaoId.value) in old(t.items) && !HasKakaoId(old(t.items)[ProfileKey(kakaoId.value)], kakaoId.value) ==>
              reply == LoginFailed && t.items == old(t.items)
    ensures Truthy(kakaoId) && ProfileKey(kakaoId.value) !in old(t.items) ==>
              && t.items == old(t.items)[ProfileKey(kakaoId.value) := UserItem(NewProfile(NewUser(kakaoId.value, nickname, email, now), now))]
              && reply == LoggedIn(Claims(kakaoId.value, kakaoId.value, None), UserView(Some(kakaoId.value), None, OrElse(email, None)))
  {
    if !Truthy(kakaoId) {
      return MissingKakaoId;
    }
    var id := kakaoId.value;
    var found := GetUserByKakaoId(t, id);
    FoundByKakaoId(found, t.items, id);
    if |found| > 0 {
      var p := found[0].item.user;
      t.Put(ProfileKey(id), UserItem(MergeProfile(p, nickname, email, now)));
      reply := LoggedIn(Claims(id, id, Some(p.nickname)), UserView(p.kakaoId, Some(p.nickname), p.email));
    } else {
      NewUserProfile(id, nickname, email, now);
      var created := CreateUser(t, NewUser(id, nickname, email, now), now);
      if created.Err? {
        return LoginFailed;
      }
      reply := LoggedIn(Claims(id, id, None), UserView(created.value.kakaoId, None, created.value.email));
    }
  }

  /** In a well-keyed table the kakao-id index finds the profile under
      `USER#<kakaoId>` when that profile carries the id, and nothing otherwise. */
  lemma FoundByKakaoId(found: seq<Row>, m: map<Key, Item>, kakaoId: string)
    requires forall k :: k in m ==> Fits(k, m[k])
    requires kakaoId != ""
    requires Lists(found, m, set k | k in m && HasKakaoId(m[k], kakaoId))
    ensures |found| > 0 <==> ProfileKey(kakaoId) in m && HasKakaoId(m[ProfileKey(kakaoId)], kakaoId)
    ensures |found| > 0 ==> found[0].key == ProfileKey(kakaoId) && found[0].item == m[ProfileKey(kakaoId)]
  {
    KakaoIdUnique(m, kakaoId);
    var keys := set k | k in m && HasKakaoId(m[k], kakaoId);
    ListsSize(found, m, keys);
    if ProfileKey(kakaoId) in m && HasKakaoId(m[ProfileKey(kakaoId)], kakaoId) {
      assert keys == {ProfileKey(kakaoId)};
    } else {
      assert keys == {};
    }
  }

  /** The returning-user branch as written: the update reads the unbound
      `dynamoDb`, so the request answers 500 and the profile keeps its old
      timestamps. */
  function ReturningLoginAsWritten(m: map<Key, Item>, kakaoId: string): (LoginReply, map<Key, Item>)
  {
    (LoginFailed, m)
  }

  /** The divergence: a returning user is refused, and the stored login time is
      not refreshed as the intended update refreshes it. */
  lemma ReturningLoginDiverges(m: map<Key, Item>, kakaoId: string, nickname: Option<string>, email: Option<string>, now: string)
    requires ProfileKey(kakaoId) in m && HasKakaoId(m[ProfileKey(kakaoId)], kakaoId)
    requires m[ProfileKey(kakaoId)].user.lastLoginAt != Some(now)
    ensures LoginStatus(ReturningLoginAsWritten(m, kakaoId).0) == 500
    ensures ReturningLoginAsWritten(m, kakaoId).1[ProfileKey(kakaoId)].user.lastLoginAt
            != MergeProfile(m[ProfileKey(kakaoId)].user, nickname, email, now).lastLoginAt
  {
  }
}
