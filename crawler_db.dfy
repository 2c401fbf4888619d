/** The crawler's data-access layer (crawler/db.py). It writes the same table and the
    same item shapes as the API server. The outcome of the DynamoDB call itself is an
    input: `fault` is a `ClientError`, which is re-raised after the table was left as
    it was. */
module CrawlerDb {
  import opened Common
  import opened Table

  /** The success dictionary of `create_market_data`. */
  datatype MarketAck = MarketAck(symbol: string, date: string)

  /** The success dictionary of `create_index_data`. */
  datatype IndexAck = IndexAck(name: string, date: string)

  /** `create_market_data`: a whole-item put under `STOCK#<symbol>`/`MARKETDATA#<date>`;
      the success dictionary is returned only once the put went through. */
  method CreateMarketData(t: Table, data: MarketDataInput, now: string, fault: bool) returns (r: Result<MarketAck>)
    requires t.Valid()
    modifies t
    ensures t.Valid()
    ensures r.Ok? <==> !fault
    ensures fault ==> r.error == ServiceError && t.items == old(t.items)
    ensures !fault ==> r.value == MarketAck(data.symbol, data.date)
    ensures !fault ==> t.items == old(t.items)[MarketKey(data.symbol, data.date) := MarketItem(MarketDataItem(data, now))]
  {
    if fault {
      r := Err(ServiceError);
    } else {
      t.Put(MarketKey(data.symbol, data.date), MarketItem(MarketDataItem(data, now)));
      r := Ok(MarketAck(data.symbol, data.date));
    }
  }

  /** `create_index_data`: a whole-item put under `INDEX#<name>`/`DATA#<date>`. */
  method CreateIndexData(t: Table, data: IndexDataInput, now: string, fault: bool) returns (r: Result<IndexAck>)
    requires t.Valid()
    modifies t
    ensures t.Valid()
    ensures r.Ok? <==> !fault
    ensures fault ==> r.error == ServiceError && t.items == old(t.items)
    ensures !fault ==> r.value == IndexAck(data.name, data.date)
    ensures !fault ==> t.items == old(t.items)[IndexKey(data.name, data.date) := IndexItem(IndexDataItem(data, now))]
  {
    if fault {
      r := Err(ServiceError);
    } else {
      t.Put(IndexKey(data.name, data.date), IndexItem(IndexDataItem(data, now)));
      r := Ok(IndexAck(data.name, data.date));
    }
  }

  /** `get_market_data`: the exact-key query; the empty list when nothing is stored,
      and the re-raised error when the call fails. */
  method GetMarketData(t: Table, symbol: string, date: string, fault: bool) returns (r: Result<seq<Row>>)
    ensures r.Ok? <==> !fault
    ensures r.Ok? ==> |r.value| <= 1
    ensures r.Ok? ==> (r.value == [] <==> MarketKey(symbol, date) !in t.items)
    ensures r.Ok? && r.value != [] ==> r.value == [Row(MarketKey(symbol, date), t.items[MarketKey(symbol, date)])]
  {
    if fault {
      r := Err(ServiceError);
    } else {
      var rows := t.Get(MarketKey(symbol, date));
      r := Ok(rows);
    }
  }

  /** What a successful `create_market_data` does to the table, as a function. */
  function PutMarket(m: map<Key, Item>, data: MarketDataInput, now: string): map<Key, Item>
  {
    m[MarketKey(data.symbol, data.date) := MarketItem(MarketDataItem(data, now))]
  }

  /** Ingesting the same payload twice leaves one item under its key, the same as a
      single ingestion at the later time: the replace-by-key is idempotent up to the
      refreshed timestamps. */
  lemma ReingestIsIdempotent(m: map<Key, Item>, data: MarketDataInput, first: string, second: string)
    ensures PutMarket(PutMarket(m, data, first), data, second) == PutMarket(m, data, second)
    ensures PutMarket(PutMarket(m, data, first), data, second).Keys == m.Keys + {MarketKey(data.symbol, data.date)}
  {
  }

  /** Two payloads for the same symbol and day: the second replaces the first item
      entirely, including `createdAt`, and every other key is untouched. */
  lemma SameDayReplaces(m: map<Key, Item>, a: MarketDataInput, b: MarketDataInput, first: string, second: string)
    requires a.symbol == b.symbol && a.date == b.date
    ensures PutMarket(PutMarket(m, a, first), b, second) == PutMarket(m, b, second)
    ensures PutMarket(m, b, second)[MarketKey(b.symbol, b.date)].market.createdAt == second
    ensures forall k :: k in m && k != MarketKey(a.symbol, a.date) ==> PutMarket(m, b, second)[k] == m[k]
  {
  }
}
