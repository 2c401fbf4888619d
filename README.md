# FIFlow core, modelled in Dafny

FIFlow keeps a per-user watch-list of Korean stocks together with daily market
snapshots. Everything lives in one DynamoDB table ('fiflow-users'). The table is
written by three crawlers and read by an Express API that runs behind a JWT
authorizer. This project models:

- **The single-table store** (`table.dfy`). `Table.Table` is a class whose `items`
  field maps (PK, SK) keys to items. Its ghost invariant `Valid()` says that every
  item sits under the key its own fields determine. Its methods are a
  whole-item put, a conditional put, delete, exact-key get, scan (`Select`) and
  same-PK query.
- **The API server's data-access layer** (`dynamo_db.dfy`, api-server/dynamo/db.js).
  This covers how each exported function builds its key and item, and what its
  put or query does to the table.
- **The crawler's data-access layer** (`crawler_db.dfy`, crawler/db.py). This covers
  the same item shapes, plus a fault input: a raised write leaves the table as it
  was and propagates. As written every write raises, because the items hold
  Python floats (see "## Findings"); the crawler loops are stated for any pattern
  of faults.
- **The market-hours gate** (`market_gate.dfy`). `isMarketOpen` becomes a
  predicate over a Korea-time clock value.
- **The token authorizer** (`authorizer.dfy`, api-server/authorizer.js). This covers
  stripping the bearer prefix, the verification outcome (an input) and the shape of
  the allow policy.
- **Scraped values** (`scrape.dfy`). It holds the rise/fall sign rule that both
  stock crawlers share, and the slot type of the eight-day foreign net-buy window.
- **The MySQL crawler** (`crawler_main.dfy`, crawler/main.py). This covers the per-row
  window, the sixteen-column flattening and the `ON DUPLICATE KEY UPDATE` upsert.
- **The Lambda stock crawler** (`crawler_lambda.dfy`, crawler/lambda_main.py). This
  covers the all-or-nothing window, the dot-to-dash date normalisation, the source
  of the symbols (the event or a table scan) and the per-symbol results list. A
  store error ends the run with status 500.
- **The index crawler** (`index_crawler.dfy`, crawler/index_crawler.py). This covers
  the `SERVICE_INDEX` lookup, the three-attempt retry and the per-index loop. A
  `cr` that `float()` rejects raises `ValueError`, which the retry's `except`
  clause does not list, so it ends the run with status 500.
- **The API routes** (`api.dfy`, api-server/app.js). These are `/stocks`,
  `/stocks/marketdata`, `/stock/:symbol/foreign`, `/stock/add`,
  `DELETE /stock/:symbol`, `/indices`, `/crawler/trigger` and the
  `POST /auth/kakao/callback` profile merge.

Anything that comes from outside the logic arrives as a parameter:

- every HTTP response and scraped page;
- every store fault;
- "now", "today" and the Korea-time clock;
- the JWT verification result;
- whether a Lambda invocation succeeds.

A crawler's inputs are a sequence with one element per stock or index. A missing
element reads as "every call fails".

## Model

| member | source | states |
|---|---|---|
| MarketGate.IsMarketOpen | api-server/app.js:43-58 | The gate itself: closed on day 0 or 6, otherwise open iff 900 <= HHMM <= 1600. Its meaning is stated by WeekendClosed, WeekdayWindow, HhmmIsTimeOfDay and Boundaries. |
| MarketGate.WeekendClosed | api-server/app.js:43-52 | On Sunday (0) or Saturday (6) the market is closed, whatever the time. |
| MarketGate.WeekdayWindow | api-server/app.js:48-57 | On a weekday the market is open exactly when 900 <= hour*100+minute <= 1600. |
| MarketGate.HhmmIsTimeOfDay | api-server/app.js:46-57 | For a real clock, the HHMM window equals the interval 09:00..16:00 in minutes, both ends included. |
| MarketGate.Boundaries | api-server/app.js:48-57 | 09:00 and 16:00 are open; 08:59 and 16:01 are closed; weekends are closed. |
| Authorizer.StripBearer | api-server/authorizer.js:19 | Drops a leading 'Bearer ' and keeps any other token. Its meaning is stated by the three StripBearer lemmas below. |
| Authorizer.StripBearerPrefixed | api-server/authorizer.js:19 | A token written as 'Bearer ' + rest verifies `rest`. |
| Authorizer.StripBearerUnprefixed | api-server/authorizer.js:19 | A token without the prefix is used unchanged. |
| Authorizer.StripBearerLength | api-server/authorizer.js:19 | Stripping removes exactly seven characters, and only when the prefix is there; prefix + result gives the token back. |
| Authorizer.GeneratePolicy | api-server/authorizer.js:36-51 | principalId is kept; the policy document is present iff effect and resource are both truthy; it then has version 2012-10-17 and one statement allowing execute-api:Invoke with the given effect on the given resource. |
| Authorizer.Handler | api-server/authorizer.js:7-33 | A missing or empty token is Unauthorized; otherwise the request is authorized iff the stripped token verifies; the policy then names the decoded userId and allows the method ARN. |
| Authorizer.BearerIsOptional | api-server/authorizer.js:19-28 | A JWT with or without the 'Bearer ' prefix gets the same decision. |
| Table.ZeroVolumes | api-server/dynamo/db.js:73 | The default net-buy list is eight zeros. |
| Table.EmptyDates | api-server/dynamo/db.js:74 | The default date list is eight empty strings. |
| Table.MarketDataItem | crawler/db.py:12-26 | The item's key comes from the payload's symbol and date; symbol_date is symbol + '_' + date; an absent list gets the eight-slot default; createdAt = updatedAt = now. |
| Table.IndexDataItem | crawler/db.py:37-48 | The key comes from the payload's name and date; index_name_date is name + '_' + date; both timestamps are now. |
| Table.RowKeysAppend | api-server/dynamo/db.js:116-128 | Adding a row to a query result adds exactly its key to the result's key set. |
| Table.ListsSize | api-server/dynamo/db.js:116-128 | A query result that lists a key set without duplicates has exactly one row per key. |
| Table.Table.constructor | api-server/dynamo/db.js:11 | A new table is empty and valid. |
| Table.Table.Put | api-server/dynamo/db.js:49-50 | A put replaces whatever was stored under the key and changes nothing else. |
| Table.Table.PutIfAbsent | api-server/dynamo/db.js:24-27 | The conditional put succeeds iff the key is free, and only then changes the table. |
| Table.Table.Delete | api-server/app.js:189-198 | A delete removes the key and nothing else. |
| Table.Table.Get | api-server/dynamo/db.js:135-148 | An exact-key query returns at most one row: the stored item, when there is one. |
| Table.Table.Select | crawler/lambda_main.py:25-28 | A scan lists every item passing its filter, each once, with its key. |
| Table.Table.QueryPk | api-server/app.js:200-207 | A partition query lists every item under the PK, each once. |
| DynamoDb.NewProfile | api-server/dynamo/db.js:12-23 | The profile fits the key `USER#(kakaoId or email)` / PROFILE; falsy kakaoId and email are stored as null; both timestamps are now. |
| DynamoDb.UserKey | api-server/dynamo/db.js:13-14 | The profile key: USER# followed by the kakao id, or the email when the id is falsy, with sort key PROFILE. NewUserProfile and UserPkInjective state its use. |
| DynamoDb.ProfileDefaults | api-server/dynamo/db.js:17-19 | A falsy nickname becomes '사용자' and a falsy loginType becomes 'kakao'; isActive defaults to true only when undefined, so an explicit false is kept. |
| DynamoDb.CreateUser | api-server/dynamo/db.js:7-33 | It succeeds iff the profile key is free and then stores the new profile. On a conflict the table is untouched and ConditionalCheckFailed is raised. The reply echoes kakaoId and email. |
| DynamoDb.CreateStock | api-server/dynamo/db.js:36-57 | An unconditional put under (USER#userId, STOCK#symbol) that replaces any earlier entry, name included. |
| DynamoDb.CreateMarketData | api-server/dynamo/db.js:59-87 | A whole-item put of the market-data item under (STOCK#symbol, MARKETDATA#date). |
| DynamoDb.CreateIndexData | api-server/dynamo/db.js:89-113 | A whole-item put under (INDEX#name, DATA#date). |
| DynamoDb.GetUserWithStocks | api-server/dynamo/db.js:116-132 | Lists exactly the items in the partition USER#userId, each once. |
| DynamoDb.GetMarketData | api-server/dynamo/db.js:135-152 | At most one row; it is present iff (STOCK#symbol, MARKETDATA#date) is stored. |
| DynamoDb.GetIndexData | api-server/dynamo/db.js:155-172 | At most one row; it is present iff (INDEX#name, DATA#date) is stored. |
| DynamoDb.GetUserByKakaoId | api-server/dynamo/db.js:195-212 | Lists exactly the profiles whose kakaoId attribute equals the argument. |
| DynamoDb.UserPkInjective | api-server/dynamo/db.js:13 | Different user ids give different partition keys. |
| DynamoDb.UserPartitionContents | api-server/dynamo/db.js:116-128 | In a valid table the user partition holds only that user's profile and that user's watch-list entries, and every such entry is in it. |
| DynamoDb.KakaoIdUnique | api-server/dynamo/db.js:195-208 | In a valid table the only profile that can carry a kakao id is the one under USER#kakaoId. |
| CrawlerDb.CreateMarketData | crawler/db.py:10-33 | Without a fault, it puts the item under its key and returns the symbol and date. With a fault, the table is untouched and the error is re-raised. |
| CrawlerDb.CreateIndexData | crawler/db.py:35-55 | Without a fault, it puts the item under (INDEX#name, DATA#date). With a fault, the table is untouched and the error is re-raised. |
| CrawlerDb.GetMarketData | crawler/db.py:57-70 | Returns the matching item, or [] when nothing is stored; a fault re-raises. |
| CrawlerDb.PutMarket | crawler/db.py:12-28 | The table after a successful `create_market_data`: the item for the payload under (STOCK#symbol, MARKETDATA#date), everything else as it was. ReingestIsIdempotent and SameDayReplaces state its properties. |
| CrawlerDb.ReingestIsIdempotent | crawler/db.py:28 | Ingesting the same payload twice equals ingesting it once at the later time, and leaves one item per key. |
| CrawlerDb.SameDayReplaces | crawler/db.py:12-28 | A second payload for the same symbol and day replaces the first one entirely, createdAt included; other keys are untouched. |
| Scrape.RemoveCommas | crawler/main.py:42-43 | The result has no commas and is no longer than the input. RemoveCommasAppend and RemoveCommasChar state that every other character is kept, in order. |
| Scrape.RemoveCommasAppend | crawler/main.py:42-43 | Removing commas distributes over concatenation. |
| Scrape.RemoveCommasChar | crawler/main.py:42-43 | A lone comma is dropped and any other character is kept. |
| Scrape.LeadingDigits | crawler/main.py:51 | The longest all-digit prefix. |
| Scrape.FirstDigitRun | crawler/main.py:51 | `re.search(r'\d+', s).group()` as a number: the value of the first maximal digit run, or None when there is none. FirstDigitRunOfDecimal and SkipNonDigits state its meaning. |
| Scrape.SignedChange | crawler/main.py:49-53 | The sign rule: '상승' gives +run, else '하락' gives -run, else 0; a missing run is the parse failure. SignFollowsWrapper, ChangeReadBack and ChangeReadBackGrouped state its meaning. |
| Scrape.ParseQuote | crawler/main.py:31-66 | A quote exists iff the page was fetched and the change text has a digit run where the sign rule needs one; price and rate are carried over, and the change is the signed run. |
| Scrape.SignFollowsWrapper | crawler/main.py:49-53 | A positive change means the wrapper says '상승'. A negative change means it says '하락' and not '상승'. With neither word the change is 0, and '상승' is checked first. |
| Scrape.Decimal | crawler/main.py:51 | The decimal text of a number is a non-empty run of digits. |
| Scrape.DecimalValue | crawler/main.py:51 | The decimal text reads back as the number. |
| Scrape.LeadingDigitsOfRun | crawler/main.py:51 | A digit run followed by a non-digit is exactly the leading digits. |
| Scrape.SkipNonDigits | crawler/main.py:51 | The regular expression \d+ skips leading non-digits. |
| Scrape.FirstDigitRunOfDecimal | crawler/main.py:51 | \d+ finds the number written after a non-digit lead. |
| Scrape.RemoveCommasNone | crawler/main.py:42-43 | Comma-free text is unchanged. |
| Scrape.ChangeReadBack | crawler/lambda_main.py:48-54 | A number written in the diff text reads back with '+' under '상승' and '-' under '하락' alone. |
| Scrape.Group3 | crawler/lambda_main.py:48 | Three digits of a number below 1000, with leading zeros. |
| Scrape.Grouped | crawler/lambda_main.py:48 | The thousands-separated rendering of a number, such as "1,200". GroupedDigits states its meaning. |
| Scrape.DecimalThousands | crawler/lambda_main.py:48 | From 1000 on, the plain rendering is the rendering of n / 1000 followed by the last three digits. |
| Scrape.GroupedDigits | crawler/lambda_main.py:48 | Removing the separators from the grouped rendering gives the plain rendering. |
| Scrape.ChangeReadBackGrouped | crawler/lambda_main.py:48-54 | A change shown with thousands separators reads back as +n under '상승' and -n under '하락' alone. |
| Scrape.GroupedExample | crawler/main.py:43-51 | "1,200" is the grouped rendering of 1200, and under '상승' it reads as +1200. |
| Scrape.EmptyWindow | crawler/main.py:121 | Eight ('', 0) slots. |
| CrawlerMain.RowSlot | crawler/main.py:104-110 | One row: its (date, net buy) when the date cell exists and the volume is an integer, ('', 0) when reading the row raises. |
| CrawlerMain.SlotAt | crawler/main.py:102-121 | Slot i of the window: row i's slot among the first eight rows, ('', 0) past the rows and after a failed request. GetForeignerNetBuy is proved against it. |
| CrawlerMain.GetForeignerNetBuy | crawler/main.py:90-121 | Always eight slots: slot i is row i's (date, net buy) when row i exists among the first eight and parses, and ('', 0) otherwise, including after a failed request. |
| CrawlerMain.LaterRowsSurvive | crawler/main.py:103-110 | A row that fails to parse empties only its own slot; a later row is still used. |
| CrawlerMain.UpsertIdempotent | crawler/main.py:131-152 | On a duplicate key, price, change, changeRate, stockName, the eight volumes, the eight dates and updatedAt take the new values. symbol, date and createdAt stay. Repeating the upsert is the same as doing it once at the later time. |
| CrawlerMain.Upsert | crawler/main.py:131-152 | The duplicate-key branch: the data columns and updatedAt take the new values; the key columns and createdAt stay. UpsertIdempotent states its properties. |
| CrawlerMain.SaveRows | crawler/main.py:123-160 | A save: nothing on a database error, the upsert of the colliding row, or an appended row. SaveMarketData is proved against it. |
| CrawlerMain.MarketDataTable.constructor | crawler/main.py:123 | The table starts empty. |
| CrawlerMain.MarketDataTable.SaveMarketData | crawler/main.py:123-160 | A failed call leaves the rows unchanged. A colliding insert upserts that row. Otherwise the row is appended with createdAt = updatedAt = now. |
| CrawlerMain.Crawl | crawler/main.py:162-196 | The saved records and the final table are exactly the per-stock fold, in listing order. Nothing is saved for a stock whose quote or name lookup failed. |
| CrawlerMain.Prepared | crawler/main.py:177-191 | The row main hands to the save, or None when the quote or the name lookup failed. PreparedRow states its meaning. |
| CrawlerMain.Records | crawler/main.py:175-196 | The rows saved for the first n stocks, in listing order. Crawl is proved against it and RecordsBound bounds it. |
| CrawlerMain.Crawled | crawler/main.py:175-196 | The table after the first n stocks. Crawl is proved against it and CrawlKeepsCreatedAt states its properties. |
| CrawlerMain.PreparedRow | crawler/main.py:175-196 | A row is saved iff the quote parsed and the name is truthy. The row then carries the symbol, today, the name and the quote, and slot i in column foreignerNetBuy{i+1} and foreignerNetBuyDate{i+1}. |
| CrawlerMain.RecordsBound | crawler/main.py:175-196 | At most one record per listed stock. |
| CrawlerMain.CrawlKeepsCreatedAt | crawler/main.py:131-152 | Crawling only appends or updates in place and never moves an existing row's createdAt. |
| CrawlerLambda.ParsedRow | crawler/lambda_main.py:92-94 | One row: its slot when the date cell exists and the volume is an integer or blank (blank reads 0); None when reading it raises. |
| CrawlerLambda.SlotAt | crawler/lambda_main.py:89-101 | Slot i of the window: ('', 0) for every slot when any of the first eight rows raises or the request failed, otherwise row i's slot, padded with ('', 0). |
| CrawlerLambda.GetForeignerNetBuy | crawler/lambda_main.py:81-101 | Always eight slots from at most the first eight rows, padded with ('', 0). If any of those rows fails, all eight slots are ('', 0), and an empty net-buy cell reads as 0. |
| CrawlerLambda.OneBadRowEmptiesWindow | crawler/lambda_main.py:91-101 | One unparsable row among the first eight discards every parsed row. |
| CrawlerLambda.LaterRowsIgnored | crawler/lambda_main.py:89 | Rows after the eighth never affect the window. |
| CrawlerLambda.CrawlersDisagree | crawler/lambda_main.py:99-101 | On the same page with one bad row, the two crawlers build different windows. |
| CrawlerLambda.DashDate | crawler/lambda_main.py:127 | Same length; every '.' becomes '-' and every other character stays. |
| CrawlerLambda.DashDateProperties | crawler/lambda_main.py:127 | No dot remains, non-dot characters are kept, the rewrite is idempotent, and '' stays ''. |
| CrawlerLambda.DashDateExample | crawler/lambda_main.py:127 | '2025.08.01' becomes '2025-08-01'. |
| CrawlerLambda.RequestedListing | crawler/lambda_main.py:107 | One listed stock per event symbol, in order. |
| CrawlerLambda.ScanIntended | crawler/lambda_main.py:29 | At most one listed stock per scanned row. |
| CrawlerLambda.ScanAsWritten | crawler/lambda_main.py:29 | The listing as written: None, that is a KeyError, as soon as a scanned item has no stockName attribute. ScanAsWrittenFails and ScanFailsOnWatchList state its meaning. |
| CrawlerLambda.ScanAsWrittenFails | crawler/lambda_main.py:29 | Reading 'stockName' from any scanned row that lacks it fails the whole scan. |
| CrawlerLambda.ScanIntendedHas | crawler/lambda_main.py:29 | Every scanned watch-list entry appears with its symbol and name. |
| CrawlerLambda.ScanFailsOnWatchList | crawler/lambda_main.py:29 | As written, a scan that finds any watch-list entry fails. |
| CrawlerLambda.ScanListsWatchList | crawler/lambda_main.py:29 | Corrected, every watch-list entry in the table is listed. |
| CrawlerLambda.GetStocksFromDb | crawler/lambda_main.py:20-37 | A ClientError gives the empty listing. Otherwise the scan covers exactly the items whose SK starts with 'STOCK#', and the listing is ScanIntended of them. That is the corrected comprehension, which reads each entry's `name` attribute. As written, line 29 reads `stockName` and raises KeyError (see "## Findings"). |
| CrawlerLambda.Payload | crawler/lambda_main.py:116-128 | The payload for one stock: None when the quote failed or neither name lookup is truthy; otherwise the symbol, today, the quote, the name and the eight-slot lists with dashed dates. SuccessMeansStored and PayloadWindow state its meaning. |
| CrawlerLambda.Stored | crawler/lambda_main.py:113-134 | The table after the first n listed stocks were written. CrawlAll is proved against it and StoredKeys states its properties. |
| CrawlerLambda.FirstCrash | crawler/lambda_main.py:113-135 | The first stock whose store write raises; every stock before it runs normally. |
| CrawlerLambda.CrawlStock | crawler/lambda_main.py:113-133 | One stock: the write raises iff there is a payload and the store faults. Otherwise the result is 'success' or 'failed' as the payload exists, and the table gains the payload's item. |
| CrawlerLambda.ListStocks | crawler/lambda_main.py:106-107 | A non-empty symbols list in the event wins; otherwise the table scan is used. |
| CrawlerLambda.StoredStep | crawler/lambda_main.py:113-133 | One more non-crashing stock extends the fold by that stock's write. |
| CrawlerLambda.CrawlAll | crawler/lambda_main.py:113-134 | The loop over a non-empty listing completes iff no stock's write raises, with one result per stock in order, each 'success' iff the stock had a payload. The table holds exactly the writes made before the first crash. |
| CrawlerLambda.Handle | crawler/lambda_main.py:103-138 | A non-empty event symbol list gives the listing. Otherwise the scan gives it: [] on a ClientError, else ScanIntended, the corrected comprehension that reads `name` (as written, the scan path raises KeyError and answers 500; see "## Findings"). An empty listing answers 200 with []. Otherwise the run completes iff no write raises, with one result per stock in order, and the table holds exactly the writes made before the first crash. |
| CrawlerLambda.SuccessMeansStored | crawler/lambda_main.py:115-133 | The result names its symbol. Its status is 'success' iff the quote parsed and the crawled or listed name is truthy, which is exactly when there is a payload. The payload carries the symbol, today as its date, the parsed price, change and rate, and that name. Writing it adds exactly the key (STOCK#symbol, MARKETDATA#today). CrawlStock and FaultFreeRunStoresAll state that the write is made. |
| CrawlerLambda.PayloadWindow | crawler/lambda_main.py:122-127 | The stored lists have eight entries each. Slot i of the volume list is the window's slot-i volume, and slot i of the date list is its slot-i date with dots turned into dashes. |
| CrawlerLambda.StoredKeys | crawler/lambda_main.py:129 | The run only adds market-data keys of listed symbols for today and never removes a key. |
| CrawlerLambda.FloatRejected | crawler/db.py:20 | The inputs as the float-holding items meet the serializer: every write raises, and nothing else about a stock changes. |
| CrawlerLambda.StoredNothing | crawler/lambda_main.py:113-134 | While no stock has a payload, the fold stores nothing. |
| CrawlerLambda.FloatRejectionAsWritten | crawler/lambda_main.py:113-138 | As written, the run answers 500 at the first stock that has a payload and stores nothing; it completes only when no stock has one. |
| CrawlerLambda.StoredGrows | crawler/lambda_main.py:113-134 | The fold never loses a key as it goes on. |
| CrawlerLambda.FaultFreeRunStoresAll | crawler/lambda_main.py:113-135 | When no write raises, the run completes and every stock with a payload is stored under its symbol and today. |
| IndexCrawler.ValueErrorEndsRun | crawler/index_crawler.py:34-38 | A matching item whose cr float() rejects is not retried. The index gets no reading and the run ends with 500 at or before it. |
| IndexCrawler.Candidates | crawler/index_crawler.py:26-28 | The items the search walks: the datas of every SERVICE_INDEX area, in order. CandidatesSplit and OtherAreasIgnored state its properties. |
| IndexCrawler.ItemOutcome | crawler/index_crawler.py:30-35 | The dictionary built from the matching item. It is a reading iff cd, nv and cv are present and cr is a number. A string cr that float() rejects gives the escaping ValueError once nv and cv were read. Anything else raises a caught exception. It is never NotFound. |
| IndexCrawler.Search | crawler/index_crawler.py:28-35 | A found reading carries the code searched for. |
| IndexCrawler.SearchAppend | crawler/index_crawler.py:26-35 | Searching a concatenation searches the second part only when the first has no match. |
| IndexCrawler.GetIndexData | crawler/index_crawler.py:17-42 | It makes one to three attempts and retries only after an exception its except clause (line 38) lists. It gives up after the third. A ValueError is not listed, so it leaves after the attempt that raised it, with escaped set. Otherwise the result is the answer of the last attempt, or None. |
| IndexCrawler.Poll | crawler/index_crawler.py:22-41 | One attempt: the outcome of the first item in a SERVICE_INDEX area whose cd equals the code (ItemOutcome), NotFound when none matches, Raised when the fetch fails or an earlier item has no cd. |
| IndexCrawler.CandidatesSplit | crawler/index_crawler.py:26-28 | The candidates of the areas split across any cut point. |
| IndexCrawler.SearchMeaning | crawler/index_crawler.py:28-35 | NotFound iff no item's cd equals the code. A found reading comes from the first match, with value and change divided by 100. An escaping ValueError comes from a first match whose nv and cv are present and whose cr float() rejects. |
| IndexCrawler.OtherAreasIgnored | crawler/index_crawler.py:27 | An area that is not SERVICE_INDEX never changes the outcome. |
| IndexCrawler.NoRetryAfterAnswer | crawler/index_crawler.py:29-38 | An attempt that does not raise a caught exception is final, whatever later attempts would answer. The index settles on its reading, or on nothing when it holds no such index or raised the ValueError, and it escapes exactly in the last case. |
| IndexCrawler.Indices | crawler/index_crawler.py:47 | The event's list when there is an event with one, else KOSPI, KOSDAQ, KPI200. |
| IndexCrawler.Escapes | crawler/index_crawler.py:21-42 | Whether the attempt the retry loop settles on raised the uncaught ValueError. SettledIsResult ties GetIndexData's escaped to it. |
| IndexCrawler.Settled | crawler/index_crawler.py:21-42 | The reading the retry loop settles on. SettledIsResult ties GetIndexData to it, and NoRetryAfterAnswer and GivesUpAfterThree state its properties. |
| IndexCrawler.Ingested | crawler/index_crawler.py:50-60 | The table after the first n indices were written. Handle is proved against it and IngestedKeys states its properties. |
| IndexCrawler.FirstCrash | crawler/index_crawler.py:50-64 | The first index that ends the run: its feed raised the ValueError, or it was found and its store write raised. |
| IndexCrawler.Handle | crawler/index_crawler.py:44-64 | The index list defaults to KOSPI, KOSDAQ, KPI200. The run completes iff no index ends it, with one result per name in order, a success iff data was found. The table holds each found index under its code and today, up to the first index that ends the run. From there the run answers 500: a feed ValueError or a store exception. |
| IndexCrawler.IngestIndex | crawler/index_crawler.py:52-60 | One index name raises iff its feed raised the ValueError, or data was found and the store faults. Otherwise the result is a success iff data was found, and the table gains that index's item under its code and today (and only then). |
| IndexCrawler.IngestedStep | crawler/index_crawler.py:50-60 | One more name that does not raise extends the fold by that name's write. |
| IndexCrawler.SettledIsResult | crawler/index_crawler.py:17-42 | The retry loop's result equals the three-attempt specification, and it escapes exactly when Escapes holds, with no reading then. |
| IndexCrawler.StoredUnderCode | crawler/index_crawler.py:54 | A found index (its code, matched upper-cased at line 29 and taken at line 31) is stored under the upper-cased code with today's date. |
| IndexCrawler.IngestedKeys | crawler/index_crawler.py:56 | The run only adds index keys for today and never removes a key. |
| IndexCrawler.GivesUpAfterThree | crawler/index_crawler.py:21-41 | After three attempts that raised caught exceptions, nothing later is read: no reading and no escape. |
| IndexCrawler.FloatRejected | crawler/db.py:42-44 | The inputs as the float-holding items meet the serializer: every write raises, and the attempts are unchanged. |
| IndexCrawler.IngestedNothing | crawler/index_crawler.py:50-60 | While no index was found, the fold stores nothing. |
| IndexCrawler.FloatRejectionAsWritten | crawler/index_crawler.py:50-64 | As written, the run answers 500 at the first index that was found or whose feed raised the ValueError, and stores nothing. It completes only when no index was found and none escaped. |
| IndexCrawler.IngestedGrows | crawler/index_crawler.py:50-60 | The fold never loses a key as it goes on. |
| IndexCrawler.FaultFreeRunStoresAll | crawler/index_crawler.py:50-64 | When no write raises, the run completes iff no feed raises the ValueError. Every index found before the run ends is stored under its upper-cased name and today. |
| Api.MarketKeyHoldsMarket | api-server/dynamo/db.js:64-68 | In a valid table the item under a market-data key is that symbol's market data for that day. |
| Api.IndexKeyHoldsIndex | api-server/dynamo/db.js:94-101 | In a valid table the item under an index key is that index's value for that day. |
| Api.StockRows | api-server/app.js:70 | Keeps exactly the rows whose SK starts with 'STOCK#'. |
| Api.StockRowsDistinct | api-server/app.js:70 | Filtering keeps keys distinct. |
| Api.WatchListRows | api-server/app.js:69-70 | The filtered partition lists exactly the user's watch-list entries, each a stock entry of that user. |
| Api.WatchListSound | api-server/app.js:69-70 | Every row kept by the sort-key filter is one of the user's stored watch-list entries. |
| Api.WatchListComplete | api-server/app.js:69-70 | Every watch-list key of the user's partition survives the filter. |
| Api.WatchListRow | api-server/app.js:70 | A row of the user's partition under 'STOCK#' is a stock entry of that user. |
| Api.Summary | api-server/app.js:70-74 | The {symbol, name, userId} of a watch-list entry. |
| Api.GetStocks | api-server/app.js:66-80 | One summary per watch-list entry of the caller, with its symbol, name and userId. |
| Api.Paired | api-server/app.js:100-103 | One pair per stored volume; a date past the end of the date list is undefined. |
| Api.Dated | api-server/app.js:103 | No output entry has an empty date, and the output is no longer than the input. |
| Api.NetBuyView | api-server/app.js:100-103 | The projection: pair each volume with its date, then drop the undated pairs. NetBuyViewPositions states its meaning. |
| Api.DatedPositions | api-server/app.js:100-103 | Output entry k comes from the k-th dated pair, at strictly increasing positions that cover every dated pair. |
| Api.DatedStepEntries | api-server/app.js:100-103 | Entry k of the projection of a non-empty list comes from position idx[k], given the same fact for its tail shifted by one. |
| Api.DatedShifted | api-server/app.js:100-103 | A tail entry at tail position j is the whole list's entry at position j + 1. |
| Api.DatedStepOrder | api-server/app.js:100-103 | Shifting strictly increasing positions by one, behind an optional 0, keeps them strictly increasing. |
| Api.DatedStepComplete | api-server/app.js:100-103 | If the tail's positions cover every dated pair of the tail, the shifted positions cover every dated pair of the whole list. |
| Api.NetBuyViewPositions | api-server/app.js:100-103 | The view is the slots with a non-empty date, in stored order, each with its own volume; it is no longer than the volume list. |
| Api.NetBuyViewExample | api-server/app.js:100-103 | An empty date and a missing date are both dropped. |
| Api.ViewOf | api-server/app.js:95-104 | The marketData object: price, change, rate, date and the net-buy projection of the stored item. |
| Api.GetStocksMarketData | api-server/app.js:83-113 | One view per watch-list entry. marketData is null iff no item exists for (symbol, today); otherwise it is that item's projection. |
| Api.ForeignViewOf | api-server/app.js:166-177 | The foreign view: symbol, date, price, change, rate, name and the net-buy projection of the stored item. |
| Api.GetForeign | api-server/app.js:161-185 | 404 iff nothing is stored for (symbol, today). Otherwise it returns the projection of that item, whose symbol and date are the requested ones. |
| Api.ScrapedName | api-server/app.js:127 | Never empty; the scraped text when it is not empty, 'Unknown' otherwise. |
| Api.AddStock | api-server/app.js:116-158 | A falsy symbol, a failed fetch, or market data already stored today each end the request without a write. Otherwise the entry is put and the crawler is invoked iff the market is open. The clauses are listed below the table. |
| Api.ReAddReplaces | api-server/dynamo/db.js:40-50 | Adding a symbol again replaces the first entry's name and timestamp. |
| Api.TriggerCrawler | api-server/app.js:379-396 | An invocation is made iff the market is open; otherwise the reply is 400. When open, the reply is 200 if the invocation succeeds and 500 if it fails, and the payload is the request's symbols when present and {} otherwise. |
| Api.InvocationsInMarketHours | api-server/app.js:43-57 | The crawler (at lines 136-143 and 381-389) is only invoked on a weekday between 09:00 and 16:00 inclusive. |
| Api.AddAndTriggerAgree | api-server/app.js:136-143 | Adding a symbol (and a trigger at lines 381-389) invokes the crawler exactly when, and with the payload that, a trigger for that symbol would. |
| Api.IndexViewOf | api-server/app.js:235-241 | isUp iff change > 0. |
| Api.GetIndices | api-server/app.js:230-248 | At most one view: KOSPI for today, present iff it is stored, with isUp iff its change is positive. |
| Api.FlatIsNotUp | api-server/app.js:240 | A change of 0 is not up. |
| Api.DeleteIntended | api-server/app.js:191-216 | The store effect the route is written to have: without the caller's entry for the symbol and without the STOCK#symbol partition. DeleteScope states its meaning. |
| Api.DeleteAsWritten | api-server/app.js:198 | The route as written: 500, with the table unchanged. |
| Api.DeleteStock | api-server/app.js:188-227 | Intended effect: the caller's entry for the symbol is removed, and so is the whole STOCK#symbol partition (the symbol's market data, which all users share); nothing else changes; the reply is 200. |
| Api.DeleteRows | api-server/app.js:208-216 | Deleting every queried row removes exactly those rows' keys and nothing else. |
| Api.PartitionRemoved | api-server/app.js:191-216 | After the user's entry is deleted, removing every row the STOCK#symbol query lists leaves exactly the intended table. |
| Api.DeleteScope | api-server/app.js:191-216 | After the intended delete, nothing remains in the symbol's partition. Other users' entries for the symbol survive, as does every other item. |
| Api.DeleteDiverges | api-server/app.js:198 | As written, the route answers 500 and keeps the caller's entry, which the intended route removes. |
| Api.MergeProfile | api-server/app.js:327-336 | The returning user's update: nickname and email replaced only by truthy values, lastLoginAt and updatedAt set to now. MergeProfileMeaning states its meaning. |
| Api.NewUser | api-server/app.js:340-347 | The new user's createUser argument: the kakao id, the email or null, the nickname or '사용자', 'kakao', active, lastLoginAt now. NewUserProfile states its meaning. |
| Api.MergeProfileMeaning | api-server/app.js:330-336 | The returning-user update keeps identity and history and takes a new nickname or email only when it is truthy. It sets lastLoginAt and updatedAt to now, and repeating it only moves the clock. |
| Api.NewUserProfile | api-server/app.js:340-347 | A new user is stored under USER#kakaoId with the default nickname when none is given. Login type is 'kakao', the account is active, and lastLoginAt is now. |
| Api.Login | api-server/app.js:315-362 | A falsy kakaoId gives 400. A returning user's profile is merged; a new user is created with the defaults, or the request answers 500 on a taken key. The clauses are listed below the table. |
| Api.FoundByKakaoId | api-server/app.js:323-324 | In a valid table the kakao-id lookup finds the profile under USER#kakaoId exactly when that profile carries the id. |
| Api.ReturningLoginAsWritten | api-server/app.js:338 | The returning-user branch as written: 500, with the table unchanged. |
| Api.ReturningLoginDiverges | api-server/app.js:338 | As written, a returning user gets 500 and the stored lastLoginAt is not refreshed. |

`Api.AddStock`:
- A falsy symbol gives 400 with no write.
- A failed page fetch gives 500 with no write.
- If today's market data for the symbol already exists, the reply is 200 and no watch-list entry is written.
- Otherwise the entry is put with the scraped name. The crawler is invoked with [symbol] exactly when the market is open.
- The reply is then 201, or 500 when the invocation fails. On that 500 the entry is kept.

`Api.Login` (the intended route):
- A falsy kakaoId gives 400.
- A returning user's profile is merged under USER#kakaoId. The token and the reply show the profile as it was before the merge.
- A new user is created with the defaults. The reply has no nickname, because `createUser` returns none.
- A profile key that is taken by a profile without this id gives 500, with no write.

## Left out

- HTTP, Express routing, CORS and `serverless-http` are not modelled. Each route is a method from its inputs and the table to a reply.
- Scraping and fetching are represented by their parsed results. This covers requests, BeautifulSoup, cheerio selectors and the index feed. A quote page is its price, rate and texts. A net-buy row is its date cell and a classified volume cell. An index response is either a failed attempt or its list of areas, whose items carry `cd`, `nv`, `cv` and a classified `cr` (a number, missing or mistyped, or a string `float()` rejects).
- JWT signing and verification are out. Verification is a function argument of `Authorizer.Handler`, and the login reply carries the claims rather than a token.
- The Kakao authorization-code exchange (`GET /auth/kakao/callback`, api-server/app.js:251-312) is not modelled. It consists of network calls followed by the same profile handling.
- `GET /auth/me` (api-server/app.js:365-376) and `getUserByEmail` (api-server/dynamo/db.js:175-192) are out. Neither is part of the modelled core.
- A Lambda invocation is recorded as an `Invocation` value with the function name and payload. Whether it succeeds is an input; its asynchronous effects are not modelled.
- Floating point is modelled as `real`:
  - `changeRate`, index values and `nv/100.0`;
  - `float(...)`, `parseFloat` and the `int(...)`/`parseInt` coercions of values that are already numbers.

  `toFixed(2)` and `:.2f` formatting are not modelled, so `Api.IndexView` carries the numbers themselves.
- Time is input. The time-zone conversion in `isMarketOpen` and the `toISOString` / `date.today()` sources of "today" and "now" are replaced by the clock, `today` and `now` parameters.
- The order of query and scan results is not modelled. DynamoDB returns a partition in sort-key order; the model states each result as a duplicate-free listing of the matching items.
- Table.Table.Select, CrawlerLambda.GetStocksFromDb: the scan at crawler/lambda_main.py:25-28 is a single call that never follows `LastEvaluatedKey`. DynamoDB returns at most 1 MB of read items per call and applies the filter afterwards. Once the table outgrows one page, the real listing is only part of the watch list. The model lists every matching item, which is what the scan returns on a table that fits in one page.
- Table.Table.QueryPk, DynamoDb.GetUserWithStocks: the partition queries at api-server/dynamo/db.js:126 and api-server/app.js:207 are also single calls that never follow `LastEvaluatedKey`, so they read at most 1 MB of one partition. The model lists the whole partition, which is what the query returns when the partition fits in one page.
- CrawlerDb.CreateMarketData, CrawlerDb.CreateIndexData: whether a write raises is the `fault` input, not derived from the item. As written, the `float(...)` values at crawler/db.py:20 and crawler/db.py:42-44 make boto3's serializer raise `TypeError` on every write (see "## Findings"). `CrawlerLambda.FloatRejected` and `IndexCrawler.FloatRejected` model that case.
- Concurrency between the crawlers and the API, and the eventual consistency of the kakao-id index, are out.
- Store errors on the API side are not modelled; only the conditional-put conflict of `createUser` is. Every route's outer `catch` (500) is therefore reached only through the conflict or an input fault.
- The scan's filter is written `SK BEGINS_WITH :sk` (crawler/lambda_main.py:26). That is not in DynamoDB's condition-expression syntax (`begins_with(SK, :sk)`), so the service may reject it with a `ClientError`, which gives an empty listing. Whether it is accepted is the `scanFault` input of `CrawlerLambda.Handle`, which the model does not decide.
- The MySQL listing query in crawler/main.py (`get_stocks_from_db`) belongs to the database. The listing is an input, and the names it returns are only logged.
- Which existing row the MySQL insert collides with is an input (`conflict`). The migrations declare no unique (symbol, date) key, so the model cannot derive it.
- The `.strip()` of scraped cells is subsumed in the inputs, which are the stripped texts.
- Digits and upper-casing are ASCII only. Python's `\d` and `str.upper()` also accept other Unicode digits and letters.
- `isActive: null` is a value the JavaScript can store but the model's `bool` cannot. The model keeps undefined (true) and explicit booleans.
- Typing faults are not modelled: request bodies whose `symbols` or `kakaoId` is a non-string, non-array JavaScript value. `kakaoId.toString()` is the identity on strings.
- All migrations and Sequelize models (api-server/migrations/*, api-server/models/*) are schema declarations. crawler/get_realtime_price.py, crawler/get_stock_info.py and test_crawler.js are standalone scripts. None of them is part of this model.
- Api.Summary: a non-stock item under an 'STOCK#' sort key (impossible in a valid table) gets empty fields rather than JavaScript's `undefined`.

## Findings

| source | as written | input that shows it | evidently intended | confidence | as-written member | corrected member |
|---|---|---|---|---|---|---|
| api-server/app.js:198 | The delete route calls `dynamoDb.delete`, but `dynamoDb` is never bound in app.js (the import at lines 7-16 only destructures functions), so every request throws and answers 500 | any DELETE /stock/:symbol for a symbol on the caller's watch list | remove the watch-list entry and the symbol's market data, answer 200 | high (not executed) | Api.DeleteAsWritten, Api.DeleteDiverges | Api.DeleteStock, Api.DeleteIntended |
| api-server/app.js:338 | The returning-user branch of POST /auth/kakao/callback calls `dynamoDb.update` on the same unbound name, so a known user can never log in (500) | a POST with the kakaoId of an existing profile | merge nickname and email, refresh lastLoginAt, answer 200 with a token | high (not executed) | Api.ReturningLoginAsWritten, Api.ReturningLoginDiverges | Api.Login, Api.MergeProfile |
| crawler/lambda_main.py:29 | The scan reads `item['stockName']`, but watch-list entries store the name as `name` (api-server/dynamo/db.js:44); the `KeyError` escapes the `ClientError` handler and the run answers 500 | a Lambda event without symbols, with one watch-list entry in the table | list each entry's symbol and name | medium (not executed; depends on the scan's filter being accepted) | CrawlerLambda.ScanAsWritten, CrawlerLambda.ScanFailsOnWatchList | CrawlerLambda.ScanIntended, CrawlerLambda.ScanListsWatchList |
| crawler/db.py:20 | `create_market_data` puts `float(data["changeRate"])` into the item. boto3's resource-level serializer rejects Python floats with `TypeError` ("Float types are not supported. Use Decimal types instead.") before any request. That is not a `ClientError`, so the error escapes db.py, and `main` (crawler/lambda_main.py:135-138) answers 500 | any Lambda run whose listing has a stock with a parsable quote and a name | store every crawled stock and answer 200 with the per-stock results | medium (not executed; rests on boto3's serializer) | CrawlerLambda.FloatRejected, CrawlerLambda.FloatRejectionAsWritten | CrawlerLambda.CrawlAll, CrawlerLambda.FaultFreeRunStoresAll |
| crawler/db.py:42 | `create_index_data` puts `float` value, change and rate into the item, which the same serializer rejects with `TypeError`, so `main` (crawler/index_crawler.py:62-64) answers 500 at the first index found | any index run in which the feed answers for one requested index | store every found index and answer 200 | medium (not executed; rests on boto3's serializer) | IndexCrawler.FloatRejected, IndexCrawler.FloatRejectionAsWritten | IndexCrawler.Handle, IndexCrawler.FaultFreeRunStoresAll |
