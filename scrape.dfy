/** What the crawlers read off the finance pages, as abstract values, and the rules
    that turn page text into numbers. The HTTP request and the HTML selectors are
    outside the model: a page that could not be fetched is `None`, and a page that
    was fetched is given by the texts the selectors would find. */
module Scrape {
  import opened Common

  // ---------------------------------------------------------------------------
  // Quote page: price, signed change and change rate

  /** The quote page's selected texts: the price (already an integer), the change
      text of `#_diff`, the text of the `p.no_exday` wrapper, and the rate. */
  datatype QuotePage = QuotePage(price: int, diffText: string, wrapperText: string, changeRate: real)

  datatype Quote = Quote(price: int, change: int, changeRate: real)

  const Rise: string := "상승"
  const Fall: string := "하락"

  predicate IsDigit(c: char)
  {
    '0' <= c <= '9'
  }

  function RemoveCommas(s: string): (r: string)
    ensures forall i :: 0 <= i < |r| ==> r[i] != ','
    ensures |r| <= |s|
  {
    if s == [] then []
    else (if s[0] == ',' then [] else [s[0]]) + RemoveCommas(s[1..])
  }

  /** The longest prefix of `s` made of digits. */
  function LeadingDigits(s: string): (r: string)
    ensures |r| <= |s| && r == s[..|r|]
    ensures forall i :: 0 <= i < |r| ==> IsDigit(r[i])
    ensures |r| < |s| ==> !IsDigit(s[|r|])
  {
    if s == [] || !IsDigit(s[0]) then [] else [s[0]] + LeadingDigits(s[1..])
  }

  /** The value of a decimal digit string, most significant digit first. */
  function DigitsValue(s: string): nat
  {
    if s == [] then 0
    else
      var d := s[|s| - 1] as int - '0' as int;
      DigitsValue(s[..|s| - 1]) * 10 + (if 0 <= d <= 9 then d else 0)
  }

  /** Python's `int(re.search(r'\d+', s).group())`, restricted to ASCII digits:
      the value of the first maximal run of digits, or `None` when the search finds
      none (and `.group()` would raise). */
  function FirstDigitRun(s: string): Option<nat>
  {
    if s == [] then None
    else if IsDigit(s[0]) then Some(DigitsValue(LeadingDigits(s)))
    else FirstDigitRun(s[1..])
  }

  /** The sign rule of `get_market_data`: the magnitude is the first digit run of
      the comma-free change text; the wrapper saying '상승' makes it positive, else
      '하락' makes it negative, else the change is 0. `None` is the parse failure
      that makes the whole quote `None`. */
  function SignedChange(wrapperText: string, diffText: string): Option<int>
  {
    if Contains(wrapperText, Rise) then
      match FirstDigitRun(RemoveCommas(diffText))
      case Some(n) => Some(n as int)
      case None => None
    else if Contains(wrapperText, Fall) then
      match FirstDigitRun(RemoveCommas(diffText))
      case Some(n) => Some(-(n as int))
      case None => None
    else Some(0)
  }

  /** `get_market_data` on an abstract page. */
  function ParseQuote(page: Option<QuotePage>): (q: Option<Quote>)
    ensures q.Some? <==> page.Some? && SignedChange(page.value.wrapperText, page.value.diffText).Some?
    ensures q.Some? ==> q.value.price == page.value.price && q.value.changeRate == page.value.changeRate
    ensures q.Some? ==> Some(q.value.change) == SignedChange(page.value.wrapperText, page.value.diffText)
  {
    if page.None? then None
    else
      match SignedChange(page.value.wrapperText, page.value.diffText)
      case None => None
      case Some(c) => Some(Quote(page.value.price, c, page.value.changeRate))
  }

  /** The sign of the change follows the wrapper's wording, with '상승' checked
      first: a positive change means the wrapper says '상승', a negative one means
      it says '하락' and not '상승', and a wrapper with neither word gives 0. */
  lemma SignFollowsWrapper(wrapperText: string, diffText: string)
    ensures (SignedChange(wrapperText, diffText).Some? && SignedChange(wrapperText, diffText).value > 0) ==> Contains(wrapperText, Rise)
    ensures (SignedChange(wrapperText, diffText).Some? && SignedChange(wrapperText, diffText).value < 0) ==>
              Contains(wrapperText, Fall) && !Contains(wrapperText, Rise)
    ensures Contains(wrapperText, Rise) && SignedChange(wrapperText, diffText).Some? ==> SignedChange(wrapperText, diffText).value >= 0
    ensures !Contains(wrapperText, Rise) && !Contains(wrapperText, Fall) ==> SignedChange(wrapperText, diffText) == Some(0)
  {
  }

  // ---------------------------------------------------------------------------
  // Decimal rendering, the partner of FirstDigitRun

  function DigitChar(d: nat): char
    requires d < 10
  {
    ('0' as int + d) as char
  }

  /** The decimal digits of `n`, without leading zeros. */
  function Decimal(n: nat): (s: string)
    ensures |s| > 0 && forall i :: 0 <= i < |s| ==> IsDigit(s[i])
  {
    if n < 10 then [DigitChar(n)] else Decimal(n / 10) + [DigitChar(n % 10)]
  }

  lemma {:induction false} DecimalValue(n: nat)
    ensures DigitsValue(Decimal(n)) == n
  {
    if n >= 10 {
      var s := Decimal(n);
      assert s[..|s| - 1] == Decimal(n / 10);
      DecimalValue(n / 10);
    }
  }

  lemma {:induction false} LeadingDigitsOfRun(run: string, rest: string)
    requires forall i :: 0 <= i < |run| ==> IsDigit(run[i])
    requires rest == [] || !IsDigit(rest[0])
    ensures LeadingDigits(run + rest) == run
    decreases |run|
  {
    if run == [] {
      assert run + rest == rest;
    } else {
      assert (run + rest)[1..] == run[1..] + rest;
      LeadingDigitsOfRun(run[1..], rest);
    }
  }

  lemma {:induction false} SkipNonDigits(lead: string, s: string)
    requires forall i :: 0 <= i < |lead| ==> !IsDigit(lead[i])
    ensures FirstDigitRun(lead + s) == FirstDigitRun(s)
    decreases |lead|
  {
    if lead != [] {
      assert (lead + s)[1..] == lead[1..] + s;
      SkipNonDigits(lead[1..], s);
    } else {
      assert lead + s == s;
    }
  }

  /** Reading the change back: text that has no digit before the rendering of `n`,
      and no digit right after it, yields exactly `n`. */
  lemma FirstDigitRunOfDecimal(lead: string, n: nat, rest: string)
    requires forall i :: 0 <= i < |lead| ==> !IsDigit(lead[i])
    requires rest == [] || !IsDigit(rest[0])
    ensures FirstDigitRun(lead + Decimal(n) + rest) == Some(n)
  {
    assert lead + Decimal(n) + rest == lead + (Decimal(n) + rest);
    SkipNonDigits(lead, Decimal(n) + rest);
    LeadingDigitsOfRun(Decimal(n), rest);
    DecimalValue(n);
  }

  lemma {:induction false} RemoveCommasNone(s: string)
    requires forall i :: 0 <= i < |s| ==> s[i] != ','
    ensures RemoveCommas(s) == s
  {
    if s != [] {
      RemoveCommasNone(s[1..]);
      assert s == [s[0]] + s[1..];
    }
  }

  /** The sign rule reads a rendered change back: a change text made of comma-free,
      digit-free text, the decimal magnitude `n` and text that does not continue the
      number gives +n under '상승' and -n under '하락'. */
  lemma ChangeReadBack(wrapperText: string, lead: string, n: nat, rest: string)
    requires forall i :: 0 <= i < |lead| ==> !IsDigit(lead[i]) && lead[i] != ','
    requires forall i :: 0 <= i < |rest| ==> rest[i] != ','
    requires rest == [] || !IsDigit(rest[0])
    ensures Contains(wrapperText, Rise) ==> SignedChange(wrapperText, lead + Decimal(n) + rest) == Some(n as int)
    ensures !Contains(wrapperText, Rise) && Contains(wrapperText, Fall) ==>
              SignedChange(wrapperText, lead + Decimal(n) + rest) == Some(-(n as int))
  {
    var text := lead + Decimal(n) + rest;
    forall i | 0 <= i < |text| ensures text[i] != ',' {
      if i < |lead| {
      } else if i < |lead| + |Decimal(n)| {
        assert text[i] == Decimal(n)[i - |lead|];
      } else {
        assert text[i] == rest[i - |lead| - |Decimal(n)|];
      }
    }
    RemoveCommasNone(text);
    FirstDigitRunOfDecimal(lead, n, rest);
  }

  /** Removing commas works character by character: it distributes over
      concatenation, drops a lone comma and keeps any other character. */
  lemma {:induction false} RemoveCommasAppend(a: string, b: string)
    ensures RemoveCommas(a + b) == RemoveCommas(a) + RemoveCommas(b)
    decreases |a|
  {
    if a == [] {
      assert a + b == b;
    } else {
      assert (a + b)[1..] == a[1..] + b;
      RemoveCommasAppend(a[1..], b);
    }
  }

  lemma RemoveCommasChar(c: char)
    ensures RemoveCommas([c]) == if c == ',' then [] else [c]
  {
  }

  /** Three digits of a number below 1000, with leading zeros. */
  function Group3(d: nat): (s: string)
    requires d < 1000
    ensures |s| == 3 && forall i :: 0 <= i < 3 ==> IsDigit(s[i])
  {
    [DigitChar(d / 100), DigitChar(d / 10 % 10), DigitChar(d % 10)]
  }

  /** The rendering with thousands separators that the quote page shows, such as
      "1,200". */
  function Grouped(n: nat): string
  {
    if n < 1000 then Decimal(n) else Grouped(n / 1000) + "," + Group3(n % 1000)
  }

  /** The digit positions of `n` and of its last three digits agree. */
  lemma ThousandsArithmetic(n: nat)
    ensures n / 10 / 10 == n / 100 && n / 100 / 10 == n / 1000
    ensures n / 100 % 10 == n % 1000 / 100 && n / 10 % 10 == n % 1000 / 10 % 10 && n % 10 == n % 1000 % 10
  {
    var q, r := n / 1000, n % 1000;
    assert n == q * 1000 + r;
    assert n / 10 == q * 100 + r / 10;
    assert n / 100 == q * 10 + r / 100;
  }

  lemma DecimalThousands(n: nat)
    requires n >= 1000
    ensures Decimal(n) == Decimal(n / 1000) + Group3(n % 1000)
  {
    ThousandsArithmetic(n);
    var d0, d1, d2 := DigitChar(n % 10), DigitChar(n / 10 % 10), DigitChar(n / 100 % 10);
    assert Decimal(n) == Decimal(n / 10) + [d0];
    assert Decimal(n / 10) == Decimal(n / 100) + [d1];
    assert Decimal(n / 100) == Decimal(n / 1000) + [d2];
    assert Group3(n % 1000) == [d2, d1, d0];
  }

  /** Removing the separators from the grouped rendering gives the plain one. */
  lemma {:induction false} GroupedDigits(n: nat)
    ensures RemoveCommas(Grouped(n)) == Decimal(n)
  {
    if n < 1000 {
      RemoveCommasNone(Decimal(n));
    } else {
      var g, tail := Grouped(n / 1000), Group3(n % 1000);
      GroupedDigits(n / 1000);
      RemoveCommasAppend(g + ",", tail);
      RemoveCommasAppend(g, ",");
      RemoveCommasNone(tail);
      DecimalThousands(n);
    }
  }

  /** The case removing the commas is there for: a change shown with thousands
      separators, as in "1,200", reads back as +n under '상승' and -n under '하락'. */
  lemma ChangeReadBackGrouped(wrapperText: string, lead: string, n: nat, rest: string)
    requires forall i :: 0 <= i < |lead| ==> !IsDigit(lead[i]) && lead[i] != ','
    requires forall i :: 0 <= i < |rest| ==> rest[i] != ','
    requires rest == [] || !IsDigit(rest[0])
    ensures Contains(wrapperText, Rise) ==> SignedChange(wrapperText, lead + Grouped(n) + rest) == Some(n as int)
    ensures !Contains(wrapperText, Rise) && Contains(wrapperText, Fall) ==>
              SignedChange(wrapperText, lead + Grouped(n) + rest) == Some(-(n as int))
  {
    RemoveCommasAppend(lead + Grouped(n), rest);
    RemoveCommasAppend(lead, Grouped(n));
    RemoveCommasNone(lead);
    RemoveCommasNone(rest);
    GroupedDigits(n);
    assert RemoveCommas(lead + Grouped(n) + rest) == lead + Decimal(n) + rest;
    FirstDigitRunOfDecimal(lead, n, rest);
  }

  /** "1,200" under a wrapper saying '상승' reads as +1200. */
  lemma GroupedExample()
    ensures Grouped(1200) == "1,200"
    ensures SignedChange(Rise, "1,200") == Some(1200)
  {
    assert Decimal(1) == "1";
    assert Group3(200) == "200";
    assert Rise[..|Rise|] == Rise;
    ChangeReadBackGrouped(Rise, "", 1200, "");
    assert "" + Grouped(1200) + "" == "1,200";
  }

  // ---------------------------------------------------------------------------
  // Foreign net-buy page: rows and slots

  /** The text of a row's net-buy cell (`td[6]`) after stripping and removing
      commas: absent, empty, a valid integer literal, or anything else. */
  datatype Cell = Missing | Blank | Number(n: int) | Garbage

  /** One table row: the date text of `td[0]` (absent when the row has no cells)
      and its net-buy cell. */
  datatype FrgnRow = FrgnRow(date: Option<string>, netBuy: Cell)

  /** One slot of the trailing window. */
  datatype Slot = Slot(date: string, netBuy: int)

  const EmptySlot: Slot := Slot("", 0)

  function EmptyWindow(): (w: seq<Slot>)
    ensures |w| == WindowSize && forall i :: 0 <= i < |w| ==> w[i] == EmptySlot
  {
    seq(WindowSize, _ => EmptySlot)
  }

  function Min(a: nat, b: nat): nat
  {
    if a <= b then a else b
  }
}
