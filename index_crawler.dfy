/** The index crawler (crawler/index_crawler.py): it polls the realtime index feed,
    retrying up to three times, picks the requested index out of the
    'SERVICE_INDEX' area and stores one IndexData item per index and day. Each
    polling attempt's outcome is an input. */
module IndexCrawler {
  import opened Common
  import opened Table
  import CrawlerDb

  const ServiceIndex: string := "SERVICE_INDEX"
  const MaxAttempts: nat := 3

  /** The raw `cr` of an item as `float(...)` meets it: a number, or a string
      `float` parses, is `Rate`; a missing key or a value of another type is
      `RateAbsent` (`KeyError`, `TypeError`); a string `float` rejects, such as
      "N/A", is `Unparsable` (`ValueError`). */
  datatype RateCell = RateAbsent | Rate(value: real) | Unparsable

  /** One entry of an area's `datas`: the code `cd` and the raw numbers `nv`, `cv`,
      `cr`. A key that is missing, or a value the arithmetic rejects, is `None`:
      reading it raises `KeyError` or `TypeError`. */
  datatype FeedItem = FeedItem(cd: Option<string>, nv: Option<real>, cv: Option<real>, cr: RateCell)

  datatype Area = Area(name: string, datas: seq<FeedItem>)

  /** One polling attempt: a failure that raises before the areas are reached (a
      request error, a body that is not JSON, a missing `result`/`areas` key), or
      the list of areas. */
  datatype Attempt = FetchFailed | Fetched(areas: seq<Area>)

  datatype Reading = Reading(name: string, value: real, change: real, changeRate: real)

  /** What searching one response gives: the reading, nothing (no retry), an
      exception the retry loop catches (`Raised`), or a `ValueError`, which the
      `except` clause at line 38 does not list and which therefore leaves
      `get_index_data` (`Escaped`). */
  datatype Outcome = Found(reading: Reading) | NotFound | Raised | Escaped

  /** The items the search walks, in order: the `datas` of every 'SERVICE_INDEX'
      area. */
  function Candidates(areas: seq<Area>): seq<FeedItem>
  {
    if areas == [] then []
    else Candidates(areas[..|areas| - 1]) + (if areas[|areas| - 1].name == ServiceIndex then areas[|areas| - 1].datas else [])
  }

  /** The dictionary built from a matching item; the feed scales value and change
      by 100. */
  function ReadingOf(item: FeedItem): Option<Reading>
  {
    if item.cd.Some? && item.nv.Some? && item.cv.Some? && item.cr.Rate? then
      Some(Reading(item.cd.value, item.nv.value / 100.0, item.cv.value / 100.0, item.cr.value))
    else None
  }

  /** Building the dictionary from the matching item: its entries are evaluated in
      order, so a missing or mistyped `nv` or `cv` raises before `cr` is read. */
  function ItemOutcome(item: FeedItem): (o: Outcome)
    ensures o.Found? <==> ReadingOf(item).Some?
    ensures o.Found? ==> o.reading == ReadingOf(item).value
    ensures o.Escaped? <==> item.cd.Some? && item.nv.Some? && item.cv.Some? && item.cr.Unparsable?
    ensures o != NotFound
  {
    if item.nv.None? || item.cv.None? then Raised
    else match item.cr
      case Rate(_) => if item.cd.Some? then Found(ReadingOf(item).value) else Raised
      case RateAbsent => Raised
      case Unparsable => if item.cd.Some? then Escaped else Raised
  }

  /** The walk over the candidates: an item without a code raises before the
      comparison; the first item whose code is `code` ends the walk, with its
      reading or, if one of its numbers is unusable, an exception. */
  function Search(items: seq<FeedItem>, code: string): (o: Outcome)
    ensures o.Found? ==> o.reading.name == code
  {
    if items == [] then NotFound
    else if items[0].cd.None? then Raised
    else if items[0].cd.value == code then ItemOutcome(items[0])
    else Search(items[1..], code)
  }

  function AttemptOutcome(a: Attempt, code: string): Outcome
  {
    match a
    case FetchFailed => Raised
    case Fetched(areas) => Search(Candidates(areas), code)
  }

  /** Attempts beyond those given fail. */
  function AttemptAt(attempts: seq<Attempt>, i: nat): Attempt
  {
    if i < |attempts| then attempts[i] else FetchFailed
  }

  lemma {:induction false} SearchAppend(xs: seq<FeedItem>, ys: seq<FeedItem>, code: string)
    ensures Search(xs + ys, code) == if Search(xs, code).NotFound? then Search(ys, code) else Search(xs, code)
  {
    if xs == [] {
      assert xs + ys == ys;
    } else {
      assert (xs + ys)[1..] == xs[1..] + ys;
      SearchAppend(xs[1..], ys, code);
    }
  }

  /** `get_index_data`: `used` is the number of attempts made, and `escaped` is
      the `ValueError` of the last of them propagating to the caller. */
  method GetIndexData(name: string, attempts: seq<Attempt>) returns (r: Option<Reading>, used: nat, escaped: bool)
    ensures 1 <= used <= MaxAttempts
    ensures forall i :: 0 <= i < used - 1 ==> AttemptOutcome(AttemptAt(attempts, i), Upper(name)).Raised?
    ensures AttemptOutcome(AttemptAt(attempts, used - 1), Upper(name)).Raised? ==> used == MaxAttempts
    ensures escaped <==> AttemptOutcome(AttemptAt(attempts, used - 1), Upper(name)).Escaped?
    ensures r == match AttemptOutcome(AttemptAt(attempts, used - 1), Upper(name))
                 case Found(x) => Some(x)
                 case _ => None
  {
    var code := Upper(name);
    var attempt := 0;
    while attempt < MaxAttempts
      invariant 0 <= attempt <= MaxAttempts
      invariant forall i :: 0 <= i < attempt ==> AttemptOutcome(AttemptAt(attempts, i), code).Raised?
    {
      var outcome := Poll(AttemptAt(attempts, attempt), code);
      if !outcome.Raised? {
        r := if outcome.Found? then Some(outcome.reading) else None;
        used, escaped := attempt + 1, outcome.Escaped?;
        return;
      }
      if attempt == MaxAttempts - 1 {
        r, used, escaped := None, MaxAttempts, false;
        return;
      }
      attempt := attempt + 1;
    }
    r, used, escaped := None, MaxAttempts, false;
  }

  /** One attempt: the nested loops over areas and their items. */
  method Poll(a: Attempt, code: string) returns (o: Outcome)
    ensures o == AttemptOutcome(a, code)
  {
    if a.FetchFailed? {
      return Raised;
    }
    var areas := a.areas;
    for k := 0 to |areas|
      invariant Search(Candidates(areas[..k]), code).NotFound?
    {
      assert areas[..k + 1][..k] == areas[..k];
      if areas[k].name == ServiceIndex {
        var datas := areas[k].datas;
        for d := 0 to |datas|
          invariant Search(datas[..d], code).NotFound?
        {
          assert datas[..d + 1] == datas[..d] + [datas[d]];
          SearchAppend(datas[..d], [datas[d]], code);
          if datas[d].cd.None? {
            o := Raised;
            SearchAppend(datas[..d + 1], datas[d + 1..], code);
            assert datas[..d + 1] + datas[d + 1..] == datas;
            SearchAppend(Candidates(areas[..k]), datas, code);
            SearchAppend(Candidates(areas[..k + 1]), Candidates(areas[k + 1..]), code);
            CandidatesSplit(areas, k + 1);
            return;
          }
          if datas[d].cd.value == code {
            o := ItemOutcome(datas[d]);
            SearchAppend(datas[..d + 1], datas[d + 1..], code);
            assert datas[..d + 1] + datas[d + 1..] == datas;
            SearchAppend(Candidates(areas[..k]), datas, code);
            SearchAppend(Candidates(areas[..k + 1]), Candidates(areas[k + 1..]), code);
            CandidatesSplit(areas, k + 1);
            return;
          }
        }
        assert datas[..|datas|] == datas;
        assert Candidates(areas[..k + 1]) == Candidates(areas[..k]) + datas;
        SearchAppend(Candidates(areas[..k]), datas, code);
        assert Search(Candidates(areas[..k + 1]), code).NotFound?;
      } else {
        assert Candidates(areas[..k + 1]) == Candidates(areas[..k]) + [];
        assert Candidates(areas[..k + 1]) == Candidates(areas[..k]);
      }
    }
    assert areas[..|areas|] == areas;
    o := NotFound;
  }

  lemma {:induction false} CandidatesSplit(areas: seq<Area>, k: nat)
    requires k <= |areas|
    ensures Candidates(areas) == Candidates(areas[..k]) + Candidates(areas[k..])
    decreases |areas|
  {
    if k == |areas| {
      assert areas[..k] == areas;
      assert areas[k..] == [];
    } else {
      var n := |areas| - 1;
      var init := areas[..n];
      CandidatesSplit(init, k);
      assert init[..k] == areas[..k];
      assert areas[k..][..|areas[k..]| - 1] == init[k..];
      assert areas[k..][|areas[k..]| - 1] == areas[n];
    }
  }

  /** The search as a whole: it finds an item only when that item has the code and
      every item before it has a different one; it finds nothing only when every
      item has a code and none matches. */
  lemma {:induction false} SearchMeaning(items: seq<FeedItem>, code: string)
    ensures Search(items, code).NotFound? <==> forall i :: 0 <= i < |items| ==> items[i].cd.Some? && items[i].cd.value != code
    ensures Search(items, code).Found? ==>
              exists i :: 0 <= i < |items| && items[i].cd == Some(code) && ReadingOf(items[i]) == Some(Search(items, code).reading)
                          && forall j :: 0 <= j < i ==> items[j].cd.Some? && items[j].cd.value != code
    ensures Search(items, code).Escaped? ==>
              exists i :: 0 <= i < |items| && items[i].cd == Some(code) && items[i].cr.Unparsable?
                          && items[i].nv.Some? && items[i].cv.Some?
                          && forall j :: 0 <= j < i ==> items[j].cd.Some? && items[j].cd.value != code
  {
    if items != [] {
      SearchMeaning(items[1..], code);
      if Search(items, code).Found? && items[0].cd != Some(code) {
        var i :| 0 <= i < |items[1..]| && items[1..][i].cd == Some(code) && ReadingOf(items[1..][i]) == Some(Search(items, code).reading)
                 && forall j :: 0 <= j < i ==> items[1..][j].cd.Some? && items[1..][j].cd.value != code;
        assert items[i + 1] == items[1..][i];
        assert forall j :: 1 <= j < i + 1 ==> items[j] == items[1..][j - 1];
      }
      if Search(items, code).Escaped? && items[0].cd != Some(code) {
        var i :| 0 <= i < |items[1..]| && items[1..][i].cd == Some(code) && items[1..][i].cr.Unparsable?
                 && items[1..][i].nv.Some? && items[1..][i].cv.Some?
                 && forall j :: 0 <= j < i ==> items[1..][j].cd.Some? && items[1..][j].cd.value != code;
        assert items[i + 1] == items[1..][i];
        assert forall j :: 1 <= j < i + 1 ==> items[j] == items[1..][j - 1];
      }
    }
  }

  /** Only a 'SERVICE_INDEX' area is searched: areas under any other name make no
      difference. */
  lemma OtherAreasIgnored(areas: seq<Area>, other: Area, code: string)
    requires other.name != ServiceIndex
    ensures AttemptOutcome(Fetched(areas + [other]), code) == AttemptOutcome(Fetched(areas), code)
  {
    assert (areas + [other])[..|areas|] == areas;
    assert Candidates(areas) + [] == Candidates(areas);
  }

  /** An attempt answered without raising is final: whatever later attempts would
      have answered, the index settles on the first one's reading, or on nothing
      when that response holds no such index. */
  lemma NoRetryAfterAnswer(name: string, a: Attempt, rest: seq<Attempt>)
    requires !AttemptOutcome(a, Upper(name)).Raised?
    ensures Settled(name, [a] + rest) == Settled(name, [a])
    ensures Settled(name, [a] + rest) ==
              match AttemptOutcome(a, Upper(name))
              case Found(x) => Some(x)
              case _ => None
    ensures Escapes(name, [a] + rest) <==> AttemptOutcome(a, Upper(name)).Escaped?
  {
    assert AttemptAt([a] + rest, 0) == a == AttemptAt([a], 0);
  }

  // ---------------------------------------------------------------------------
  // main

  const DefaultIndices: seq<string> := ["KOSPI", "KOSDAQ", "KPI200"]

  /** The outside calls for one index: the polling attempts and whether
      `create_index_data` raises. */
  datatype IndexInput = IndexInput(attempts: seq<Attempt>, storeFault: bool)

  const NoInput: IndexInput := IndexInput([], false)

  function InputAt(inputs: seq<IndexInput>, i: nat): IndexInput
  {
    if i < |inputs| then inputs[i] else NoInput
  }

  datatype IndexResult = IndexResult(name: string, success: bool)

  datatype Reply = Completed(results: seq<IndexResult>) | Errored

  function StatusCode(r: Reply): int
  {
    if r.Completed? then 200 else 500
  }

  /** `event.get('indices', default) if event else default`: `requested` is the
      event's list when it has one. */
  function Indices(requested: Option<seq<string>>): seq<string>
  {
    if requested.Some? then requested.value else DefaultIndices
  }

  /** The reading `get_index_data` settles on for an index. */
  function Settled(name: string, attempts: seq<Attempt>): Option<Reading>
  {
    if AttemptOutcome(AttemptAt(attempts, 0), Upper(name)).Found? then Some(AttemptOutcome(AttemptAt(attempts, 0), Upper(name)).reading)
    else if !AttemptOutcome(AttemptAt(attempts, 0), Upper(name)).Raised? then None
    else if AttemptOutcome(AttemptAt(attempts, 1), Upper(name)).Found? then Some(AttemptOutcome(AttemptAt(attempts, 1), Upper(name)).reading)
    else if !AttemptOutcome(AttemptAt(attempts, 1), Upper(name)).Raised? then None
    else if AttemptOutcome(AttemptAt(attempts, 2), Upper(name)).Found? then Some(AttemptOutcome(AttemptAt(attempts, 2), Upper(name)).reading)
    else None
  }

  /** Whether the attempt `get_index_data` settles on ends in the `ValueError`
      that leaves it. */
  predicate Escapes(name: string, attempts: seq<Attempt>)
  {
    var o0 := AttemptOutcome(AttemptAt(attempts, 0), Upper(name));
    var o1 := AttemptOutcome(AttemptAt(attempts, 1), Upper(name));
    var o2 := AttemptOutcome(AttemptAt(attempts, 2), Upper(name));
    o0.Escaped? || (o0.Raised? && (o1.Escaped? || (o1.Raised? && o2.Escaped?)))
  }

  /** The item stored for a reading: it is filed under the feed's code, not the
      requested name. */
  function Stored(x: Reading, today: string): IndexDataInput
  {
    IndexDataInput(x.name, x.value, x.change, x.changeRate, today)
  }

  /** Index `i` ends the run: its feed raised the `ValueError`, or its reading was
      found and the store write raised. */
  predicate Crashes(names: seq<string>, inputs: seq<IndexInput>, i: nat)
    requires i < |names|
  {
    || Escapes(names[i], InputAt(inputs, i).attempts)
    || (Settled(names[i], InputAt(inputs, i).attempts).Some? && InputAt(inputs, i).storeFault)
  }

  /** The first index at or after `from` that ends the run, or `|names|`. */
  function FirstCrash(names: seq<string>, inputs: seq<IndexInput>, from: nat): (n: nat)
    requires from <= |names|
    ensures from <= n <= |names|
    ensures forall i :: from <= i < n ==> !Crashes(names, inputs, i)
    ensures n < |names| ==> Crashes(names, inputs, n)
    decreases |names| - from
  {
    if from == |names| || Crashes(names, inputs, from) then from
    else FirstCrash(names, inputs, from + 1)
  }

  /** The table after the first `n` indices were stored. */
  function Ingested(m: map<Key, Item>, names: seq<string>, inputs: seq<IndexInput>, n: nat, today: string, now: string): map<Key, Item>
    requires n <= |names|
  {
    if n == 0 then m
    else
      var before := Ingested(m, names, inputs, n - 1, today, now);
      match Settled(names[n - 1], InputAt(inputs, n - 1).attempts)
      case Some(x) => before[IndexKey(x.name, today) := IndexItem(IndexDataItem(Stored(x, today), now))]
      case None => before
  }

  /** The body of the per-index loop. `None` is an exception that ends the run:
      the feed's `ValueError` out of `get_index_data`, or the one raised by
      `create_index_data`. */
  method IngestIndex(t: Table, name: string, input: IndexInput, today: string, now: string)
    returns (result: Option<IndexResult>)
    requires t.Valid()
    modifies t
    ensures t.Valid()
    ensures result.None? <==> Escapes(name, input.attempts) || (Settled(name, input.attempts).Some? && input.storeFault)
    ensures result.Some? ==> result.value == IndexResult(name, Settled(name, input.attempts).Some?)
    ensures t.items == match Settled(name, input.attempts)
                       case Some(x) =>
                         if input.storeFault then old(t.items)
                         else old(t.items)[IndexKey(x.name, today) := IndexItem(IndexDataItem(Stored(x, today), now))]
                       case None => old(t.items)
  {
    var reading, used, escaped := GetIndexData(name, input.attempts);
    SettledIsResult(name, input.attempts, reading, used, escaped);
    if escaped {
      return None;
    }
    if reading.None? {
      return Some(IndexResult(name, false));
    }
    var stored := CrawlerDb.CreateIndexData(t, Stored(reading.value, today), now, input.storeFault);
    if stored.Err? {
      return None;
    }
    result := Some(IndexResult(name, true));
  }

  /** One more index, when its write went through or nothing was written. */
  lemma IngestedStep(m: map<Key, Item>, before: map<Key, Item>, names: seq<string>, inputs: seq<IndexInput>, i: nat, today: string, now: string)
    requires i < |names| && before == Ingested(m, names, inputs, i, today, now)
    requires !Crashes(names, inputs, i)
    ensures FirstCrash(names, inputs, i) == FirstCrash(names, inputs, i + 1)
    ensures Ingested(m, names, inputs, i + 1, today, now) ==
              match Settled(names[i], InputAt(inputs, i).attempts)
              case Some(x) => before[IndexKey(x.name, today) := IndexItem(IndexDataItem(Stored(x, today), now))]
              case None => before
  {
  }

  /** `main`: one result per index, in order, under the requested name; the feed's
      `ValueError` or a store exception ends the run with 500 after the writes made
      before it. */
  method Handle(t: Table, requested: Option<seq<string>>, inputs: seq<IndexInput>, today: string, now: string)
    returns (reply: Reply)
    requires t.Valid()
    modifies t
    ensures t.Valid()
    ensures reply.Completed? <==> FirstCrash(Indices(requested), inputs, 0) == |Indices(requested)|
    ensures reply.Completed? ==>
              && |reply.results| == |Indices(requested)|
              && forall i :: 0 <= i < |Indices(requested)| ==>
                   reply.results[i] == IndexResult(Indices(requested)[i], Settled(Indices(requested)[i], InputAt(inputs, i).attempts).Some?)
    ensures t.items == Ingested(old(t.items), Indices(requested), inputs, FirstCrash(Indices(requested), inputs, 0), today, now)
  {
    var indices := Indices(requested);
    var results: seq<IndexResult> := [];
    for i := 0 to |indices|
      invariant t.Valid()
      invariant FirstCrash(indices, inputs, 0) == FirstCrash(indices, inputs, i)
      invariant |results| == i
      invariant forall j :: 0 <= j < i ==> results[j] == IndexResult(indices[j], Settled(indices[j], InputAt(inputs, j).attempts).Some?)
      invariant t.items == Ingested(old(t.items), indices, inputs, i, today, now)
    {
      ghost var before := t.items;
      var r := IngestIndex(t, indices[i], InputAt(inputs, i), today, now);
      if r.None? {
        assert FirstCrash(indices, inputs, i) == i;
        return Errored;
      }
      IngestedStep(old(t.items), before, indices, inputs, i, today, now);
      results := results + [r.value];
    }
    reply := Completed(results);
  }

  /** `Settled` is the value `get_index_data` returns, and `Escapes` says whether
      it raises instead. */
  lemma SettledIsResult(name: string, attempts: seq<Attempt>, r: Option<Reading>, used: nat, escaped: bool)
    requires 1 <= used <= MaxAttempts
    requires forall i :: 0 <= i < used - 1 ==> AttemptOutcome(AttemptAt(attempts, i), Upper(name)).Raised?
    requires AttemptOutcome(AttemptAt(attempts, used - 1), Upper(name)).Raised? ==> used == MaxAttempts
    requires escaped <==> AttemptOutcome(AttemptAt(attempts, used - 1), Upper(name)).Escaped?
    requires r == match AttemptOutcome(AttemptAt(attempts, used - 1), Upper(name))
                  case Found(x) => Some(x)
                  case _ => None
    ensures r == Settled(name, attempts)
    ensures escaped == Escapes(name, attempts)
    ensures escaped ==> r.None?
  {
  }

  /** A stored reading is filed under the upper-cased requested name, since the
      search matches `cd` against it. */
  lemma StoredUnderCode(name: string, attempts: seq<Attempt>, today: string)
    requires Settled(name, attempts).Some?
    ensures Stored(Settled(name, attempts).value, today).name == Upper(name)
  {
  }

  /** Ingestion keeps every existing key, and every key it adds is the upper-cased
      requested name of one of the indices crawled, on today's date. */
  lemma {:induction false} IngestedKeys(m: map<Key, Item>, names: seq<string>, inputs: seq<IndexInput>, n: nat, today: string, now: string)
    requires n <= |names|
    ensures m.Keys <= Ingested(m, names, inputs, n, today, now).Keys
    ensures forall k :: k in Ingested(m, names, inputs, n, today, now) && k !in m ==>
              exists i :: 0 <= i < n && k == IndexKey(Upper(names[i]), today)
  {
    if n > 0 {
      IngestedKeys(m, names, inputs, n - 1, today, now);
      match Settled(names[n - 1], InputAt(inputs, n - 1).attempts)
      case Some(x) =>
        StoredUnderCode(names[n - 1], InputAt(inputs, n - 1).attempts, today);
      case None =>
    }
  }

  /** Three failed attempts give up; a fourth is never made. */
  lemma GivesUpAfterThree(name: string, a: seq<Attempt>, later: Attempt)
    requires |a| == MaxAttempts
    requires forall i :: 0 <= i < MaxAttempts ==> AttemptOutcome(a[i], Upper(name)).Raised?
    ensures Settled(name, a + [later]) == None
    ensures !Escapes(name, a + [later])
  {
    assert forall i :: 0 <= i < MaxAttempts ==> AttemptAt(a + [later], i) == a[i];
  }

  // ---------------------------------------------------------------------------
  // The floats handed to the store

  /** The inputs as db.py meets them: `create_index_data` gives boto3's resource
      Python `float`s for value, change and rate, which its serializer rejects with
      `TypeError` before any request is sent, so every write raises. Nothing else
      about an index changes. */
  function FloatRejected(inputs: seq<IndexInput>): (r: seq<IndexInput>)
    ensures |r| == |inputs|
    ensures forall i :: 0 <= i < |r| ==> r[i].storeFault && r[i].attempts == inputs[i].attempts
  {
    seq(|inputs|, i requires 0 <= i < |inputs| => inputs[i].(storeFault := true))
  }

  /** While no index was found, the fold stores nothing. */
  lemma {:induction false} IngestedNothing(m: map<Key, Item>, names: seq<string>, inputs: seq<IndexInput>, n: nat, today: string, now: string)
    requires n <= |names|
    requires forall i :: 0 <= i < n ==> Settled(names[i], InputAt(inputs, i).attempts).None?
    ensures Ingested(m, names, inputs, n, today, now) == m
  {
    if n > 0 {
      IngestedNothing(m, names, inputs, n - 1, today, now);
    }
  }

  /** As written, a run stops with 500 at the first index that was found (or
      whose feed raised the `ValueError`) and has stored nothing; it completes only
      when no index was found. */
  lemma FloatRejectionAsWritten(m: map<Key, Item>, names: seq<string>, inputs: seq<IndexInput>, today: string, now: string)
    ensures var n := FirstCrash(names, FloatRejected(inputs), 0);
            && (n == |names| <==> forall i :: 0 <= i < |names| ==>
                                    Settled(names[i], InputAt(inputs, i).attempts).None? && !Escapes(names[i], InputAt(inputs, i).attempts))
            && (n < |names| ==> Settled(names[n], InputAt(inputs, n).attempts).Some? || Escapes(names[n], InputAt(inputs, n).attempts))
            && Ingested(m, names, FloatRejected(inputs), n, today, now) == m
  {
    var f := FloatRejected(inputs);
    forall i | 0 <= i < |names|
      ensures InputAt(f, i).attempts == InputAt(inputs, i).attempts
      ensures Crashes(names, f, i) <==> Settled(names[i], InputAt(f, i).attempts).Some? || Escapes(names[i], InputAt(f, i).attempts)
    {
    }
    var n := FirstCrash(names, f, 0);
    IngestedNothing(m, names, f, n, today, now);
  }

  /** The fold never loses a key as it goes on. */
  lemma {:induction false} IngestedGrows(m: map<Key, Item>, names: seq<string>, inputs: seq<IndexInput>, i: nat, n: nat, today: string, now: string)
    requires i <= n <= |names|
    ensures Ingested(m, names, inputs, i, today, now).Keys <= Ingested(m, names, inputs, n, today, now).Keys
    decreases n
  {
    if n > i {
      IngestedGrows(m, names, inputs, i, n - 1, today, now);
    }
  }

  /** With items the serializer accepts, a run whose writes all go through ends
      only at a feed `ValueError`: it completes when no feed raises one, and every
      index found before the end is stored under its upper-cased name and today. */
  lemma FaultFreeRunStoresAll(m: map<Key, Item>, names: seq<string>, inputs: seq<IndexInput>, today: string, now: string)
    requires forall i :: 0 <= i < |inputs| ==> !inputs[i].storeFault
    ensures FirstCrash(names, inputs, 0) == |names| <==>
              forall i :: 0 <= i < |names| ==> !Escapes(names[i], InputAt(inputs, i).attempts)
    ensures var n := FirstCrash(names, inputs, 0);
            forall i :: 0 <= i < n && Settled(names[i], InputAt(inputs, i).attempts).Some? ==>
              IndexKey(Upper(names[i]), today) in Ingested(m, names, inputs, n, today, now)
  {
    var n := FirstCrash(names, inputs, 0);
    forall i | 0 <= i < |names|
      ensures Crashes(names, inputs, i) <==> Escapes(names[i], InputAt(inputs, i).attempts)
    {
    }
    forall i | 0 <= i < n && Settled(names[i], InputAt(inputs, i).attempts).Some?
      ensures IndexKey(Upper(names[i]), today) in Ingested(m, names, inputs, n, today, now)
    {
      StoredUnderCode(names[i], InputAt(inputs, i).attempts, today);
      IngestedGrows(m, names, inputs, i + 1, n, today, now);
    }
  }

  // ---------------------------------------------------------------------------
  // The ValueError of the feed

  /** A feed whose matching item has a `cr` that `float` rejects ends the run at
      that index: `get_index_data` is left after the first attempt, without a
      retry, and `main` answers 500 with the writes made before it. */
  lemma ValueErrorEndsRun(names: seq<string>, inputs: seq<IndexInput>, i: nat, item: FeedItem, rest: seq<Attempt>)
    requires i < |names| && i < |inputs|
    requires item.cd == Some(Upper(names[i])) && item.nv.Some? && item.cv.Some? && item.cr.Unparsable?
    requires inputs[i].attempts == [Fetched([Area(ServiceIndex, [item])])] + rest
    ensures Escapes(names[i], inputs[i].attempts)
    ensures Settled(names[i], inputs[i].attempts).None?
    ensures FirstCrash(names, inputs, 0) <= i
  {
    var a := Fetched([Area(ServiceIndex, [item])]);
    assert Candidates([Area(ServiceIndex, [item])]) == Candidates([]) + [item];
    assert AttemptAt(inputs[i].attempts, 0) == a;
    assert Crashes(names, inputs, i);
  }
}
