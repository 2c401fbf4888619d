/** The single DynamoDB table ('fiflow-users') shared by the API server and the crawler.
    Items are addressed by a (PK, SK) pair of strings:
      USER#<id>      / PROFILE              a user profile
      USER#<userId>  / STOCK#<symbol>       a watch-list entry
      STOCK#<symbol> / MARKETDATA#<date>    one day's market snapshot of a symbol
      INDEX#<name>   / DATA#<date>          one day's value of a market index
    The table itself is a map from keys to items; a put replaces the whole item stored
    under its key. */
module Table {
  import opened Common

  type Key = (string, string)

  datatype Profile = Profile(
    kakaoId: Option<string>,
    email: Option<string>,
    nickname: string,
    loginType: string,
    isActive: bool,
    lastLoginAt: Option<string>,
    createdAt: string,
    updatedAt: string)

  datatype StockEntry = StockEntry(symbol: string, name: string, userId: string, createdAt: string)

  datatype MarketData = MarketData(
    symbolDate: string,
    symbol: string,
    date: string,
    price: int,
    change: int,
    changeRate: real,
    stockName: string,
    foreignerNetBuy: seq<int>,
    foreignerNetBuyDate: seq<string>,
    createdAt: string,
    updatedAt: string)

  datatype IndexData = IndexData(
    indexNameDate: string,
    name: string,
    value: real,
    change: real,
    changeRate: real,
    date: string,
    createdAt: string,
    updatedAt: string)

  datatype Item =
    | UserItem(user: Profile)
    | StockItem(stock: StockEntry)
    | MarketItem(market: MarketData)
    | IndexItem(index: IndexData)

  /** One element of a query result: the item together with its key attributes. */
  datatype Row = Row(key: Key, item: Item)

  datatype StoreError = ConditionalCheckFailed | ServiceError

  datatype Result<T> = Ok(value: T) | Err(error: StoreError)

  const ProfileSk: string := "PROFILE"

  function UserPk(id: string): string { "USER#" + id }
  function StockSk(symbol: string): string { "STOCK#" + symbol }
  function StockPk(symbol: string): string { "STOCK#" + symbol }
  function MarketSk(date: string): string { "MARKETDATA#" + date }
  function IndexPk(name: string): string { "INDEX#" + name }
  function DataSk(date: string): string { "DATA#" + date }

  function MarketKey(symbol: string, date: string): Key { (StockPk(symbol), MarketSk(date)) }
  function IndexKey(name: string, date: string): Key { (IndexPk(name), DataSk(date)) }

  /** The market-data payload handed to the store by an ingestion path. An absent
      net-buy list is `None`. */
  datatype MarketDataInput = MarketDataInput(
    symbol: string,
    date: string,
    price: int,
    change: int,
    changeRate: real,
    stockName: string,
    foreignerNetBuy: Option<seq<int>>,
    foreignerNetBuyDate: Option<seq<string>>)

  datatype IndexDataInput = IndexDataInput(name: string, value: real, change: real, changeRate: real, date: string)

  /** The default trailing window: eight zero volumes and eight empty dates. */
  function ZeroVolumes(): (r: seq<int>)
    ensures |r| == WindowSize && forall i :: 0 <= i < |r| ==> r[i] == 0
  {
    seq(WindowSize, _ => 0)
  }

  function EmptyDates(): (r: seq<string>)
    ensures |r| == WindowSize && forall i :: 0 <= i < |r| ==> r[i] == ""
  {
    seq(WindowSize, _ => "")
  }

  /** The market-data item both ingestion paths build from a payload; `now` is the
      caller's timestamp, used for both `createdAt` and `updatedAt`. */
  function MarketDataItem(data: MarketDataInput, now: string): (m: MarketData)
    ensures MarketKey(m.symbol, m.date) == MarketKey(data.symbol, data.date)
    ensures m.symbolDate == data.symbol + "_" + data.date
    ensures m.foreignerNetBuy == if data.foreignerNetBuy.Some? then data.foreignerNetBuy.value else ZeroVolumes()
    ensures m.foreignerNetBuyDate == if data.foreignerNetBuyDate.Some? then data.foreignerNetBuyDate.value else EmptyDates()
    ensures m.createdAt == now && m.updatedAt == now
  {
    MarketData(
      data.symbol + "_" + data.date, data.symbol, data.date, data.price, data.change,
      data.changeRate, data.stockName,
      if data.foreignerNetBuy.Some? then data.foreignerNetBuy.value else ZeroVolumes(),
      if data.foreignerNetBuyDate.Some? then data.foreignerNetBuyDate.value else EmptyDates(),
      now, now)
  }

  function IndexDataItem(data: IndexDataInput, now: string): (x: IndexData)
    ensures IndexKey(x.name, x.date) == IndexKey(data.name, data.date)
    ensures x.indexNameDate == data.name + "_" + data.date
    ensures x.createdAt == now && x.updatedAt == now
  {
    IndexData(data.name + "_" + data.date, data.name, data.value, data.change,
              data.changeRate, data.date, now, now)
  }

  /** The key shape each kind of item is stored under. */
  predicate Fits(k: Key, it: Item)
  {
    match it
    case UserItem(p) =>
      && StartsWith(k.0, "USER#") && k.1 == ProfileSk
      && (Truthy(p.kakaoId) ==> k.0 == UserPk(p.kakaoId.value))
    case StockItem(s) => k == (UserPk(s.userId), StockSk(s.symbol))
    case MarketItem(m) => k == MarketKey(m.symbol, m.date)
    case IndexItem(x) => k == IndexKey(x.name, x.date)
  }

  function RowKeys(r: seq<Row>): set<Key>
  {
    set i | 0 <= i < |r| :: r[i].key
  }

  lemma RowKeysAppend(r: seq<Row>, row: Row)
    ensures RowKeys(r + [row]) == RowKeys(r) + {row.key}
  {
    var r' := r + [row];
    forall k | k in RowKeys(r') ensures k in RowKeys(r) + {row.key} {
      var i :| 0 <= i < |r'| && r'[i].key == k;
      if i < |r| { assert r[i] == r'[i]; }
    }
    forall k | k in RowKeys(r) ensures k in RowKeys(r') {
      var i :| 0 <= i < |r| && r[i].key == k;
      assert r'[i] == r[i];
    }
    assert r'[|r|] == row;
  }

  /** `r` lists exactly the items of `m` whose keys are in `keys`, each once, each
      with its stored value. */
  ghost predicate Lists(r: seq<Row>, m: map<Key, Item>, keys: set<Key>)
  {
    && (forall i :: 0 <= i < |r| ==> r[i].key in keys && r[i].key in m && r[i].item == m[r[i].key])
    && (forall i, j :: 0 <= i < j < |r| ==> r[i].key != r[j].key)
    && keys <= RowKeys(r)
  }

  lemma {:induction false} ListsSize(r: seq<Row>, m: map<Key, Item>, keys: set<Key>)
    requires Lists(r, m, keys)
    ensures |r| == |keys|
    decreases |r|
  {
    if r == [] {
      assert keys == {};
    } else {
      var last := r[|r| - 1];
      var r' := r[..|r| - 1];
      assert forall i :: 0 <= i < |r'| ==> r'[i] == r[i];
      assert RowKeys(r) == RowKeys(r') + {last.key};
      assert last.key !in RowKeys(r');
      assert Lists(r', m, keys - {last.key});
      ListsSize(r', m, keys - {last.key});
    }
  }

  class Table {
    var items: map<Key, Item>

    /** Every item is stored under the key shape of its kind. */
    ghost predicate Valid()
      reads this
    {
      forall k :: k in items ==> Fits(k, items[k])
    }

    constructor ()
      ensures Valid() && items == map[]
    {
      items := map[];
    }

    /** Unconditional put: the whole item under `k` is replaced. */
    method Put(k: Key, it: Item)
      requires Valid() && Fits(k, it)
      modifies this
      ensures Valid()
      ensures items == old(items)[k := it]
    {
      items := items[k := it];
    }

    /** Put guarded by `attribute_not_exists(PK)`: DynamoDB evaluates the condition
        against the item already stored under the same key, so the put fails exactly
        when that key is taken, and then nothing changes. */
    method PutIfAbsent(k: Key, it: Item) returns (ok: bool)
      requires Valid() && Fits(k, it)
      modifies this
      ensures Valid()
      ensures ok <==> k !in old(items)
      ensures items == if ok then old(items)[k := it] else old(items)
    {
      ok := k !in items;
      if ok {
        items := items[k := it];
      }
    }

    method Delete(k: Key)
      requires Valid()
      modifies this
      ensures Valid()
      ensures items == old(items) - {k}
    {
      items := items - {k};
    }

    /** A query whose key condition fixes both PK and SK. */
    method Get(k: Key) returns (r: seq<Row>)
      ensures |r| <= 1
      ensures |r| == 1 <==> k in items
      ensures |r| == 1 ==> r[0] == Row(k, items[k])
    {
      if k in items {
        r := [Row(k, items[k])];
      } else {
        r := [];
      }
    }

    /** Every item whose key and value satisfy `keep`, each once. The order in which
        DynamoDB returns them (ascending SK) is not modelled. */
    method Select(keep: (Key, Item) -> bool) returns (r: seq<Row>)
      ensures Lists(r, items, set k | k in items && keep(k, items[k]))
    {
      var rest := items.Keys;
      r := [];
      while rest != {}
        invariant rest <= items.Keys
        invariant forall i :: 0 <= i < |r| ==>
          && r[i].key in items && r[i].item == items[r[i].key]
          && keep(r[i].key, items[r[i].key]) && r[i].key !in rest
        invariant forall i, j :: 0 <= i < j < |r| ==> r[i].key != r[j].key
        invariant forall k :: k in items && keep(k, items[k]) && k !in rest ==> k in RowKeys(r)
        decreases rest
      {
        var k :| k in rest;
        if keep(k, items[k]) {
          ghost var was := r;
          r := r + [Row(k, items[k])];
          RowKeysAppend(was, Row(k, items[k]));
        }
        rest := rest - {k};
      }
    }

    /** A query whose key condition fixes only PK. */
    method QueryPk(pk: string) returns (r: seq<Row>)
      ensures Lists(r, items, set k | k in items && k.0 == pk)
    {
      r := Select((k: Key, it: Item) => k.0 == pk);
      assert (set k | k in items && ((k: Key, it: Item) => k.0 == pk)(k, items[k]))
          == (set k | k in items && k.0 == pk);
    }
  }
}
