/** The API server's data-access layer (api-server/dynamo/db.js): how each exported
    function builds its key and item, and what its put or query does to the table. */
module DynamoDb {
  import opened Common
  import opened Table

  const DefaultNickname: string := "사용자"
  const DefaultLoginType: string := "kakao"

  /** The argument object of `createUser`; `None` stands for a property that is
      `undefined` or `null`. */
  datatype UserInput = UserInput(
    kakaoId: Option<string>,
    email: Option<string>,
    nickname: Option<string>,
    loginType: Option<string>,
    isActive: Option<bool>,
    lastLoginAt: Option<string>)

  /** What `createUser` resolves to: the identifiers exactly as passed in. */
  datatype UserAck = UserAck(kakaoId: Option<string>, email: Option<string>)

  /** `USER#${data.kakaoId || data.email}` / `PROFILE`. */
  function UserKey(data: UserInput): Key
  {
    (UserPk(Interpolated(OrElse(data.kakaoId, data.email))), ProfileSk)
  }

  /** The profile item `createUser` writes, with its defaults. */
  function NewProfile(data: UserInput, now: string): (p: Profile)
    ensures Fits(UserKey(data), UserItem(p))
    ensures p.kakaoId == OrElse(data.kakaoId, None) && p.email == OrElse(data.email, None)
    ensures p.createdAt == now && p.updatedAt == now
  {
    Profile(
      OrElse(data.kakaoId, None),
      OrElse(data.email, None),
      OrDefault(data.nickname, DefaultNickname),
      OrDefault(data.loginType, DefaultLoginType),
      if data.isActive.Some? then data.isActive.value else true,
      OrElse(data.lastLoginAt, None),
      now, now)
  }

  /** The defaults of `createUser`: a falsy nickname or login type is replaced, and
      `isActive` defaults to true only when it was left undefined. */
  lemma ProfileDefaults(data: UserInput, now: string)
    ensures NewProfile(data, now).nickname == if Truthy(data.nickname) then data.nickname.value else "사용자"
    ensures NewProfile(data, now).nickname != ""
    ensures NewProfile(data, now).loginType == if Truthy(data.loginType) then data.loginType.value else "kakao"
    ensures data.isActive == Some(false) ==> !NewProfile(data, now).isActive
    ensures data.isActive == None ==> NewProfile(data, now).isActive
  {
  }

  /** `createUser`: a put conditioned on the profile key being free. On a conflict
      the error is rethrown and the table is untouched. */
  method CreateUser(t: Table, data: UserInput, now: string) returns (r: Result<UserAck>)
    requires t.Valid()
    modifies t
    ensures t.Valid()
    ensures r.Ok? <==> UserKey(data) !in old(t.items)
    ensures r.Ok? ==> r.value == UserAck(data.kakaoId, data.email)
    ensures r.Ok? ==> t.items == old(t.items)[UserKey(data) := UserItem(NewProfile(data, now))]
    ensures r.Err? ==> r.error == ConditionalCheckFailed && t.items == old(t.items)
  {
    var ok := t.PutIfAbsent(UserKey(data), UserItem(NewProfile(data, now)));
    if ok {
      r := Ok(UserAck(data.kakaoId, data.email));
    } else {
      r := Err(ConditionalCheckFailed);
    }
  }

  /** `createStock`: an unconditional put, so adding the same symbol again replaces
      the entry, name included. */
  method CreateStock(t: Table, userId: string, symbol: string, name: string, now: string)
    requires t.Valid()
    modifies t
    ensures t.Valid()
    ensures t.items == old(t.items)[(UserPk(userId), StockSk(symbol)) := StockItem(StockEntry(symbol, name, userId, now))]
  {
    t.Put((UserPk(userId), StockSk(symbol)), StockItem(StockEntry(symbol, name, userId, now)));
  }

  method CreateMarketData(t: Table, data: MarketDataInput, now: string)
    requires t.Valid()
    modifies t
    ensures t.Valid()
    ensures t.items == old(t.items)[MarketKey(data.symbol, data.date) := MarketItem(MarketDataItem(data, now))]
  {
    t.Put(MarketKey(data.symbol, data.date), MarketItem(MarketDataItem(data, now)));
  }

  method CreateIndexData(t: Table, data: IndexDataInput, now: string)
    requires t.Valid()
    modifies t
    ensures t.Valid()
    ensures t.items == old(t.items)[IndexKey(data.name, data.date) := IndexItem(IndexDataItem(data, now))]
  {
    t.Put(IndexKey(data.name, data.date), IndexItem(IndexDataItem(data, now)));
  }

  /** The keys of the user partition `USER#<userId>`. */
  ghost function UserPartition(m: map<Key, Item>, userId: string): set<Key>
  {
    set k | k in m && k.0 == UserPk(userId)
  }

  /** `getUserWithStocks`: every item whose PK is `USER#<userId>`. */
  method GetUserWithStocks(t: Table, userId: string) returns (r: seq<Row>)
    ensures Lists(r, t.items, UserPartition(t.items, userId))
  {
    r := t.QueryPk(UserPk(userId));
  }

  /** `getMarketData`: the exact-key query, so at most one item comes back. */
  method GetMarketData(t: Table, symbol: string, date: string) returns (r: seq<Row>)
    ensures |r| <= 1
    ensures |r| == 1 <==> MarketKey(symbol, date) in t.items
    ensures |r| == 1 ==> r[0].key == MarketKey(symbol, date) && r[0].item == t.items[MarketKey(symbol, date)]
  {
    r := t.Get(MarketKey(symbol, date));
  }

  method GetIndexData(t: Table, name: string, date: string) returns (r: seq<Row>)
    ensures |r| <= 1
    ensures |r| == 1 <==> IndexKey(name, date) in t.items
    ensures |r| == 1 ==> r[0].key == IndexKey(name, date) && r[0].item == t.items[IndexKey(name, date)]
  {
    r := t.Get(IndexKey(name, date));
  }

  predicate HasKakaoId(it: Item, kakaoId: string)
  {
    it.UserItem? && it.user.kakaoId == Some(kakaoId)
  }

  /** `getUserByKakaoId`: a query of the `kakaoId` index, which holds the profiles
      that carry that kakao id. */
  method GetUserByKakaoId(t: Table, kakaoId: string) returns (r: seq<Row>)
    ensures Lists(r, t.items, set k | k in t.items && HasKakaoId(t.items[k], kakaoId))
  {
    r := t.Select((k: Key, it: Item) => HasKakaoId(it, kakaoId));
    assert (set k | k in t.items && ((k: Key, it: Item) => HasKakaoId(it, kakaoId))(k, t.items[k]))
        == (set k | k in t.items && HasKakaoId(t.items[k], kakaoId));
  }

  lemma UserPkInjective(a: string, b: string)
    requires UserPk(a) == UserPk(b)
    ensures a == b
  {
    assert a == UserPk(a)[5..];
    assert b == UserPk(b)[5..];
  }

  /** In a well-keyed table the partition `USER#<userId>` holds the user's profile
      (under `PROFILE`) and that user's watch-list entries, and nothing else; in
      particular no market or index data. */
  lemma UserPartitionContents(m: map<Key, Item>, userId: string)
    requires forall k :: k in m ==> Fits(k, m[k])
    ensures forall k :: k in UserPartition(m, userId) ==>
      || (m[k].UserItem? && k == (UserPk(userId), ProfileSk))
      || (m[k].StockItem? && m[k].stock.userId == userId && k.1 == StockSk(m[k].stock.symbol))
    ensures forall k :: k in m && m[k].StockItem? && m[k].stock.userId == userId ==> k in UserPartition(m, userId)
  {
    forall k | k in UserPartition(m, userId)
      ensures || (m[k].UserItem? && k == (UserPk(userId), ProfileSk))
              || (m[k].StockItem? && m[k].stock.userId == userId && k.1 == StockSk(m[k].stock.symbol))
    {
      match m[k]
      case UserItem(_) =>
      case StockItem(s) => UserPkInjective(s.userId, userId);
      case MarketItem(d) => DistinctHeads("USER#", "STOCK#", userId, d.symbol);
      case IndexItem(x) => DistinctHeads("USER#", "INDEX#", userId, x.name);
    }
  }

  /** In a well-keyed table a non-empty kakao id is carried by at most the one
      profile stored under `USER#<kakaoId>`, so the index query returns at most one
      item. */
  lemma KakaoIdUnique(m: map<Key, Item>, kakaoId: string)
    requires forall k :: k in m ==> Fits(k, m[k])
    requires kakaoId != ""
    ensures (set k | k in m && HasKakaoId(m[k], kakaoId)) <= {(UserPk(kakaoId), ProfileSk)}
  {
  }
}
