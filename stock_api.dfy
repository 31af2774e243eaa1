/** The pure helpers of the data layer `StockDataAPI` (api.py): date-string
    normalisation, market dispatch, the US symbol candidates tried against the
    history service, the choice of the date column of a fetched table, the
    index-name lookup, and the Bollinger-band and EMA columns. Fetching itself
    (akshare, yfinance, HTTP) is outside the model: where the source calls the
    network, the model takes the answer as a parameter. */
module StockApi {
  import opened Options
  import opened Series
  import opened Search

  // ---------------------------------------------------------------------
  // Strings
  // ---------------------------------------------------------------------

  /** `s.replace(c, '')`: every occurrence of `c` removed. */
  function RemoveAll(s: string, c: char): (r: string)
    ensures c !in r
    ensures |r| <= |s|
    decreases |s|
  {
    if |s| == 0 then ""
    else if s[0] == c then RemoveAll(s[1..], c)
    else [s[0]] + RemoveAll(s[1..], c)
  }

  lemma {:induction false} RemoveAllAppend(a: string, b: string, c: char)
    ensures RemoveAll(a + b, c) == RemoveAll(a, c) + RemoveAll(b, c)
    decreases |a|
  {
    if |a| > 0 {
      assert (a + b)[1..] == a[1..] + b;
      RemoveAllAppend(a[1..], b, c);
    } else {
      assert a + b == b;
    }
  }

  lemma {:induction false} RemoveAllAbsent(s: string, c: char)
    requires c !in s
    ensures RemoveAll(s, c) == s
    decreases |s|
  {
    if |s| > 0 {
      assert s == [s[0]] + s[1..];
      RemoveAllAbsent(s[1..], c);
    }
  }

  /** Python slicing `s[i:j]` for 0 <= i <= j: the bounds are clamped to the
      length instead of failing. */
  function PySlice(s: string, i: nat, j: nat): (r: string)
    requires i <= j
    ensures j <= |s| ==> r == s[i..j]
    ensures |r| <= j - i
  {
    var hi := if j <= |s| then j else |s|;
    var lo := if i <= hi then i else hi;
    s[lo..hi]
  }

  /** Every `a` in `s` becomes `b`: `s.replace(a, b)` for single characters,
      and `df.rename(columns={a: b})` on a header. */
  function Replace<T(==)>(s: seq<T>, a: T, b: T): (r: seq<T>)
    ensures |r| == |s|
    ensures forall i :: 0 <= i < |s| ==> r[i] == (if s[i] == a then b else s[i])
  {
    seq(|s|, i requires 0 <= i < |s| => if s[i] == a then b else s[i])
  }

  /** The whitespace `str.strip()` removes, restricted to ASCII. */
  predicate IsSpace(ch: char)
  {
    ch == ' ' || '\t' <= ch <= '\r' || '\U{1C}' <= ch <= '\U{1F}'
  }

  function StripStart(s: string): (r: string)
    ensures |r| <= |s|
    ensures |r| > 0 ==> !IsSpace(r[0]) && r[|r| - 1] == s[|s| - 1]
    decreases |s|
  {
    if |s| > 0 && IsSpace(s[0]) then StripStart(s[1..]) else s
  }

  function StripEnd(s: string): (r: string)
    ensures |r| <= |s|
    ensures |r| > 0 ==> !IsSpace(r[|r| - 1]) && r[0] == s[0]
    decreases |s|
  {
    if |s| > 0 && IsSpace(s[|s| - 1]) then StripEnd(s[..|s| - 1]) else s
  }

  /** `str.strip()`: leading and trailing whitespace removed. */
  function Strip(s: string): (r: string)
    ensures |r| > 0 ==> !IsSpace(r[0]) && !IsSpace(r[|r| - 1])
  {
    StripEnd(StripStart(s))
  }

  /** `str.upper()`, restricted to ASCII letters. */
  function Upper(s: string): (r: string)
    ensures |r| == |s|
  {
    seq(|s|, i requires 0 <= i < |s| => UpperChar(s[i]))
  }

  function UpperChar(ch: char): (r: char)
    ensures IsSpace(r) <==> IsSpace(ch)
  {
    if 'a' <= ch <= 'z' then (ch as int - 32) as char else ch
  }

  /** `s.split('.')[-1]`: the text after the last '.', the whole text when
      there is none. */
  function LastPart(s: string): (r: string)
    ensures '.' !in r
    ensures |r| <= |s|
    ensures |r| > 0 ==> r[|r| - 1] == s[|s| - 1]
    decreases |s|
  {
    if |s| == 0 then ""
    else if s[|s| - 1] == '.' then ""
    else LastPart(s[..|s| - 1]) + [s[|s| - 1]]
  }

  /** LastPart is the suffix of `s` after its last '.', or all of `s`. */
  lemma {:induction false} LastPartIsSuffix(s: string)
    ensures var r := LastPart(s); r == s[|s| - |r|..]
    ensures var r := LastPart(s); |r| < |s| ==> s[|s| - |r| - 1] == '.'
    decreases |s|
  {
    if |s| > 0 && s[|s| - 1] != '.' {
      var init, last := s[..|s| - 1], s[|s| - 1];
      LastPartIsSuffix(init);
      var r0 := LastPart(init);
      assert LastPart(s) == r0 + [last];
      assert r0 == init[|init| - |r0|..];
      assert s == init + [last];
      assert init[|init| - |r0|..] + [last] == s[|s| - |r0| - 1..];
      if |r0| < |init| {
        assert init[|init| - |r0| - 1] == s[|s| - |r0| - 2];
      }
    }
  }

  // ---------------------------------------------------------------------
  // Dates (get_stock_data and _get_us_data)
  // ---------------------------------------------------------------------

  predicate IsDigit(ch: char) { '0' <= ch <= '9' }

  /** A date as the callers write it: `YYYY-MM-DD`. */
  predicate IsIsoDate(s: string)
  {
    && |s| == 10 && s[4] == '-' && s[7] == '-'
    && (forall i :: 0 <= i < 4 ==> IsDigit(s[i]))
    && IsDigit(s[5]) && IsDigit(s[6]) && IsDigit(s[8]) && IsDigit(s[9])
  }

  /** A date as the A-share history service takes it: `YYYYMMDD`. */
  predicate IsCompactDate(s: string)
  {
    |s| == 8 && forall i :: 0 <= i < 8 ==> IsDigit(s[i])
  }

  /** `start_date.replace('-', '')` (api.py:50, 55). */
  function CompactDate(s: string): (r: string)
    ensures '-' !in r
  {
    RemoveAll(s, '-')
  }

  /** `f"{s[:4]}-{s[4:6]}-{s[6:8]}"`: the form the US history service takes
      (api.py:124-125). */
  function UsDate(s: string): (r: string)
    ensures |s| >= 8 ==> |r| == 10 && r[4] == '-' && r[7] == '-'
    ensures |s| >= 8 ==> r[..4] == s[..4] && r[5..7] == s[4..6] && r[8..] == s[6..8]
  {
    PySlice(s, 0, 4) + "-" + PySlice(s, 4, 6) + "-" + PySlice(s, 6, 8)
  }

  /** Removing the dashes from `y-m-d` joins the three parts. */
  lemma RemoveDashes(y: string, m: string, d: string)
    requires '-' !in y && '-' !in m && '-' !in d
    ensures RemoveAll(y + "-" + m + "-" + d, '-') == y + m + d
  {
    RemoveDash(y, m);
    RemoveDash(y + "-" + m, d);
    RemoveAllAbsent(y, '-');
    RemoveAllAbsent(m, '-');
    RemoveAllAbsent(d, '-');
  }

  /** Removing the dashes from `a-b` joins what is left of `a` and `b`. */
  lemma RemoveDash(a: string, b: string)
    ensures RemoveAll(a + "-" + b, '-') == RemoveAll(a, '-') + RemoveAll(b, '-')
  {
    RemoveAllAppend(a + "-", b, '-');
    RemoveAllAppend(a, "-", '-');
    assert RemoveAll("-", '-') == "" by {
      assert "-"[1..] == "";
    }
  }

  /** Compacting a `YYYY-MM-DD` date gives `YYYYMMDD`, and the US form of
      that is the date the caller wrote. */
  lemma IsoDateRoundTrip(s: string)
    requires IsIsoDate(s)
    ensures IsCompactDate(CompactDate(s))
    ensures UsDate(CompactDate(s)) == s
  {
    var y, m, d := s[..4], s[5..7], s[8..];
    assert s == y + "-" + m + "-" + d;
    assert '-' !in y && '-' !in m && '-' !in d;
    RemoveDashes(y, m, d);
    var c := CompactDate(s);
    assert c == y + m + d;
    assert c[..4] == y && c[4..6] == m && c[6..8] == d;
  }

  /** The other direction: a compact date survives the trip through the US
      form and back. */
  lemma CompactDateRoundTrip(c: string)
    requires IsCompactDate(c)
    ensures IsIsoDate(UsDate(c))
    ensures CompactDate(UsDate(c)) == c
  {
    var y, m, d := c[..4], c[4..6], c[6..8];
    var u := UsDate(c);
    assert u == y + "-" + m + "-" + d;
    forall i | 0 <= i < 4 ensures IsDigit(u[i]) { assert u[i] == c[i]; }
    assert u[4] == '-' && u[7] == '-';
    assert u[5] == c[4] && u[6] == c[5] && u[8] == c[6] && u[9] == c[7];
    assert '-' !in y && '-' !in m && '-' !in d;
    RemoveDashes(y, m, d);
    assert y + m + d == c;
  }

  // ---------------------------------------------------------------------
  // Market dispatch (get_stock_data)
  // ---------------------------------------------------------------------

  /** The fetchers get_stock_data can hand a request to. */
  datatype Fetcher = ShanghaiHistory | ShenzhenHistory | ChiNextHistory | UsHistory | UsSinaDaily

  const SupportedMarkets: set<string> := {"sh", "sz", "cyb", "us", "us2"}

  /** The market-to-fetcher chain of get_stock_data; any other market raises
      ValueError, which the method catches and turns into None. */
  function MarketFetcher(market: string): (f: Option<Fetcher>)
    ensures f.Some? <==> market in SupportedMarkets
    ensures f == Some(UsHistory) <==> market == "us"
    ensures f == Some(UsSinaDaily) <==> market == "us2"
  {
    if market == "sh" then Some(ShanghaiHistory)
    else if market == "sz" then Some(ShenzhenHistory)
    else if market == "cyb" then Some(ChiNextHistory)
    else if market == "us" then Some(UsHistory)
    else if market == "us2" then Some(UsSinaDaily)
    else None
  }

  /** What get_stock_data passes on: the fetcher and the date arguments. */
  datatype StockRequest = StockRequest(fetcher: Fetcher, symbol: string, startDate: string, endDate: string,
                                       period: string, adjust: string)

  /** A date argument: absent or empty means the default (derived from the
      clock, here a parameter); otherwise every '-' is removed. */
  function DateArgument(given: Option<string>, fallback: string): string
  {
    if given.None? || given.value == "" then fallback else CompactDate(given.value)
  }

  /** get_stock_data up to the call into a fetcher (api.py:45-73). The two
      defaults stand for `datetime.now()` one year back and today, formatted
      `%Y%m%d`. */
  function PlanStockRequest(symbol: string, market: string, startDate: Option<string>, endDate: Option<string>,
                            defaultStart: string, defaultEnd: string, period: string, adjust: string)
    : (r: Option<StockRequest>)
    requires '-' !in defaultStart && '-' !in defaultEnd
    ensures r.Some? <==> market in SupportedMarkets
    ensures r.Some? ==> r.value.symbol == symbol && '-' !in r.value.startDate && '-' !in r.value.endDate
    ensures r.Some? && startDate.Some? && startDate.value != "" ==> r.value.startDate == CompactDate(startDate.value)
    ensures r.Some? && endDate.Some? && endDate.value != "" ==> r.value.endDate == CompactDate(endDate.value)
    ensures r.Some? && (startDate.None? || startDate == Some("")) ==> r.value.startDate == defaultStart
    ensures r.Some? && (endDate.None? || endDate == Some("")) ==> r.value.endDate == defaultEnd
  {
    var start := DateArgument(startDate, defaultStart);
    var end := DateArgument(endDate, defaultEnd);
    match MarketFetcher(market)
    case None => None
    case Some(f) => Some(StockRequest(f, symbol, start, end, period, adjust))
  }

  /** A US request for `YYYY-MM-DD` dates reaches the US history service
      with exactly those dates: compacting in get_stock_data and
      reformatting in _get_us_data cancel out. */
  lemma UsRequestKeepsIsoDates(symbol: string, startDate: string, endDate: string,
                               defaultStart: string, defaultEnd: string, period: string, adjust: string)
    requires '-' !in defaultStart && '-' !in defaultEnd
    requires IsIsoDate(startDate) && IsIsoDate(endDate)
    ensures var r := PlanStockRequest(symbol, "us", Some(startDate), Some(endDate), defaultStart, defaultEnd, period, adjust);
      r.Some? && r.value.fetcher == UsHistory
      && UsDate(r.value.startDate) == startDate && UsDate(r.value.endDate) == endDate
  {
    IsoDateRoundTrip(startDate);
    IsoDateRoundTrip(endDate);
  }

  // ---------------------------------------------------------------------
  // US symbol candidates (_get_us_data)
  // ---------------------------------------------------------------------

  const UsPrefixes: seq<string> := ["105", "106", "107"]

  /** The code the user typed, stripped, upper-cased and cut after the last '.'. */
  function UsBase(symbol: string): (r: string)
    ensures '.' !in r
  {
    LastPart(Upper(Strip(symbol)))
  }

  /** The spellings tried: as typed, with '.' for '-', and with '-' for '.'. */
  function UsForms(base: string): set<string>
  {
    {base, Replace(base, '.', '-'), Replace(base, '-', '.')}
  }

  /** A history symbol: market prefix, '.', spelling. */
  function Candidate(px: string, form: string): string
  {
    px + "." + form
  }

  /** Every history symbol `_get_us_data` may try for `symbol`. */
  function UsCandidates(symbol: string): set<string>
  {
    set px, form | px in UsPrefixes && form in UsForms(UsBase(symbol)) :: Candidate(px, form)
  }

  /** The base never contains '.', so only two spellings remain and at most
      six distinct symbols can be tried. */
  lemma UsCandidatesAtMostSix(symbol: string)
    ensures var b := UsBase(symbol); UsForms(b) == {b, Replace(b, '-', '.')}
    ensures |UsCandidates(symbol)| <= 6
  {
    var b := UsBase(symbol);
    ReplaceAbsent(b, '.', '-');
    var b2 := Replace(b, '-', '.');
    var six := {Candidate("105", b), Candidate("106", b), Candidate("107", b),
                Candidate("105", b2), Candidate("106", b2), Candidate("107", b2)};
    forall c | c in UsCandidates(symbol) ensures c in six {
      var px, form :| px in UsPrefixes && form in UsForms(b) && c == Candidate(px, form);
      assert px == UsPrefixes[0] || px == UsPrefixes[1] || px == UsPrefixes[2];
    }
    SubsetCard(UsCandidates(symbol), six);
  }

  /** Replacing a character that does not occur changes nothing. */
  lemma ReplaceAbsent(s: string, a: char, b: char)
    requires a !in s
    ensures Replace(s, a, b) == s
  {
    assert forall i :: 0 <= i < |s| ==> s[i] != a;
  }

  lemma {:induction false} SubsetCard<T>(a: set<T>, b: set<T>)
    requires a <= b
    ensures |a| <= |b|
    decreases |a|
  {
    if a != {} {
      var x :| x in a;
      SubsetCard(a - {x}, b - {x});
    }
  }

  /** No spelling of the base ends in whitespace: the input was stripped
      before it was cut, and swapping '.' and '-' keeps the last character
      visible. */
  lemma UsFormsEndVisible(symbol: string, form: string)
    requires form in UsForms(UsBase(symbol))
    ensures |form| > 0 ==> !IsSpace(form[|form| - 1])
  {
    var s := Strip(symbol);
    var u := Upper(s);
    var b := LastPart(u);
    if |b| > 0 {
      assert b[|b| - 1] == u[|u| - 1] == UpperChar(s[|s| - 1]);
      if form != b {
        assert form[|form| - 1] in {b[|b| - 1], '.', '-'};
      }
    }
  }

  /** `cand.strip()` leaves every candidate as built. */
  lemma StripCandidate(px: string, form: string)
    requires px in UsPrefixes
    requires |form| > 0 ==> !IsSpace(form[|form| - 1])
    ensures Strip(Candidate(px, form)) == Candidate(px, form)
  {
    var c := Candidate(px, form);
    assert px == UsPrefixes[0] || px == UsPrefixes[1] || px == UsPrefixes[2];
    assert c[0] == '1';
    assert StripStart(c) == c;
    assert c[|c| - 1] == if |form| > 0 then form[|form| - 1] else '.';
  }

  /** Every candidate is already stripped. */
  lemma CandidateStripped(symbol: string, c: string)
    requires c in UsCandidates(symbol)
    ensures Strip(c) == c
  {
    var px, form :| px in UsPrefixes && form in UsForms(UsBase(symbol)) && c == Candidate(px, form);
    UsFormsEndVisible(symbol, form);
    StripCandidate(px, form);
  }

  /** The candidates as the attempt loop sees them: stripped, with the empty
      ones dropped, in list order. */
  function Cleaned(xs: seq<string>): (r: seq<string>)
    ensures forall j :: 0 <= j < |r| ==> r[j] != ""
  {
    if |xs| == 0 then []
    else
      var sc := Strip(xs[|xs| - 1]);
      Cleaned(xs[..|xs| - 1]) + (if sc == "" then [] else [sc])
  }

  /** Cleaning a prefix gives a prefix of the cleaned list. */
  lemma {:induction false} CleanedPrefix(xs: seq<string>, m: nat)
    requires m <= |xs|
    ensures |Cleaned(xs[..m])| <= |Cleaned(xs)| && Cleaned(xs)[..|Cleaned(xs[..m])|] == Cleaned(xs[..m])
    decreases |xs|
  {
    if m < |xs| {
      var init := xs[..|xs| - 1];
      assert init[..m] == xs[..m];
      CleanedPrefix(init, m);
      assert Cleaned(xs)[..|Cleaned(init)|] == Cleaned(init);
    } else {
      assert xs[..m] == xs;
    }
  }

  /** A list of stripped, non-empty candidates is already clean. */
  lemma {:induction false} CleanedStripped(xs: seq<string>)
    requires forall i :: 0 <= i < |xs| ==> Strip(xs[i]) == xs[i] && xs[i] != ""
    ensures Cleaned(xs) == xs
  {
    if |xs| > 0 {
      var init := xs[..|xs| - 1];
      CleanedStripped(init);
      assert xs == init + [xs[|xs| - 1]];
    }
  }

  /** The three candidates of one spelling, one per prefix 105, 106, 107. */
  function Triple(form: string): (r: seq<string>)
    ensures |r| == 3 && forall k :: 0 <= k < 3 ==> r[k] == Candidate(UsPrefixes[k], form)
  {
    [Candidate(UsPrefixes[0], form), Candidate(UsPrefixes[1], form), Candidate(UsPrefixes[2], form)]
  }

  /** The candidate list for the spellings of `order`, spelling by spelling. */
  function Expand(order: seq<string>): (r: seq<string>)
    ensures |r| == 3 * |order|
  {
    if |order| == 0 then [] else Expand(order[..|order| - 1]) + Triple(order[|order| - 1])
  }

  /** `candHist` lists, for each spelling in `order` in turn, the three
      prefixes 105, 106 and 107, and `order` holds each spelling once. */
  ghost predicate CandidateOrder(symbol: string, order: seq<string>, candHist: seq<string>)
  {
    && Distinct(order)
    && (forall f :: f in order <==> f in UsForms(UsBase(symbol)))
    && candHist == Expand(order)
  }

  /** Every pairing of a prefix with a spelling of `order` is listed. */
  lemma {:induction false} ExpandHas(order: seq<string>, px: string, f: string)
    requires px in UsPrefixes && f in order
    ensures Candidate(px, f) in Expand(order)
  {
    var init, last := order[..|order| - 1], order[|order| - 1];
    assert order == init + [last];
    if f == last {
      assert px == UsPrefixes[0] || px == UsPrefixes[1] || px == UsPrefixes[2];
      assert Candidate(px, f) in Triple(last);
    } else {
      ExpandHas(init, px, f);
    }
  }

  /** Only pairings of a prefix with a spelling of `order` are listed. */
  lemma {:induction false} ExpandOnly(order: seq<string>, c: string)
    requires c in Expand(order)
    ensures exists px, f :: px in UsPrefixes && f in order && c == Candidate(px, f)
  {
    var init, last := order[..|order| - 1], order[|order| - 1];
    assert order == init + [last];
    if c in Triple(last) {
      assert last in order;
      var k :| 0 <= k < 3 && c == Triple(last)[k];
      assert c == Candidate(UsPrefixes[k], last);
    } else {
      ExpandOnly(init, c);
      var px, f :| px in UsPrefixes && f in init && c == Candidate(px, f);
      assert f in order;
    }
  }

  /** The candidate list of `_get_us_data` (api.py:128-135), built by
      nested loops over the set of spellings, in whatever order the set is
      iterated (`order`), and the three prefixes. */
  method UsCandidateList(symbol: string) returns (candHist: seq<string>, ghost order: seq<string>)
    ensures forall c :: c in candHist <==> c in UsCandidates(symbol)
    ensures |candHist| <= 9
    ensures CandidateOrder(symbol, order, candHist)
  {
    var base := LastPart(Upper(Strip(symbol)));
    var forms := {base, Replace(base, '.', '-'), Replace(base, '-', '.')};
    candHist, order := [], [];
    var rest := forms;
    while rest != {}
      invariant rest <= forms
      invariant Distinct(order) && forall f :: f in order <==> f in forms - rest
      invariant candHist == Expand(order)
      decreases |rest|
    {
      var form :| form in rest;
      var j := 0;
      while j < |UsPrefixes|
        invariant 0 <= j <= |UsPrefixes|
        invariant candHist == Expand(order) + Triple(form)[..j]
      {
        candHist := candHist + [Candidate(UsPrefixes[j], form)];
        j := j + 1;
      }
      assert form !in order;
      ExpandSnoc(order, form);
      DistinctSnoc(order, form);
      order := order + [form];
      rest := rest - {form};
    }
    ExpandedForms(symbol, order);
  }

  /** One more spelling appends its three candidates. */
  lemma ExpandSnoc(order: seq<string>, form: string)
    ensures Expand(order + [form]) == Expand(order) + Triple(form)
  {
    assert (order + [form])[..|order|] == order;
  }

  /** Listing each spelling once gives exactly the candidate set, in at most
      nine entries. */
  lemma ExpandedForms(symbol: string, order: seq<string>)
    requires Distinct(order) && forall f :: f in order <==> f in UsForms(UsBase(symbol))
    ensures forall c :: c in Expand(order) <==> c in UsCandidates(symbol)
    ensures |Expand(order)| <= 9
  {
    var forms := UsForms(UsBase(symbol));
    forall k | 0 <= k < |order| ensures order[k] in forms {
      assert order[k] in order;
    }
    forall c ensures c in Expand(order) <==> c in UsCandidates(symbol) {
      if c in Expand(order) {
        ExpandOnly(order, c);
      }
      if c in UsCandidates(symbol) {
        var px, f :| px in UsPrefixes && f in forms && c == Candidate(px, f);
        ExpandHas(order, px, f);
      }
    }
    DistinctWithin(order, forms);
    var b := UsBase(symbol);
    SubsetCard(forms, {b, Replace(b, '.', '-'), Replace(b, '-', '.')});
  }

  /** The attempt loop of `_get_us_data` (api.py:136-153). `listed` stands
      for the symbols whose history request returns a non-empty table; a
      request that raises counts as not listed. Each distinct candidate is
      tried at most once, in list order, and the first listed one is
      returned. */
  method FetchUsHistory(symbol: string, listed: set<string>)
    returns (attempts: seq<string>, found: Option<string>, ghost candHist: seq<string>, ghost order: seq<string>)
    ensures Distinct(attempts)
    ensures forall k :: 0 <= k < |attempts| ==> attempts[k] in UsCandidates(symbol)
    ensures forall k :: 0 <= k < |attempts| - 1 ==> attempts[k] !in listed
    ensures found.Some? ==> |attempts| > 0 && found.value == attempts[|attempts| - 1] && found.value in listed
    ensures found.None? ==> (forall k :: 0 <= k < |attempts| ==> attempts[k] !in listed)
                            && forall c :: c in UsCandidates(symbol) ==> c in attempts
    ensures |attempts| <= 6
    ensures CandidateOrder(symbol, order, candHist) && FirstListed(candHist, listed, attempts, found)
  {
    var list;
    list, order := UsCandidateList(symbol);
    candHist := list;
    forall i | 0 <= i < |list| ensures Strip(list[i]) == list[i] && list[i] != "" {
      CandidateStripped(symbol, list[i]);
    }
    CleanedStripped(list);
    attempts, found := TryCandidates(list, listed);
    FirstListedFacts(list, listed, attempts, found);
    UsCandidatesAtMostSix(symbol);
    DistinctWithin(attempts, UsCandidates(symbol));
  }

  /** The loop itself, over any list of candidates: strip each, skip the
      empty and the already tried, stop at the first listed one. */
  method TryCandidates(candHist: seq<string>, listed: set<string>) returns (attempts: seq<string>, found: Option<string>)
    ensures FirstListed(Cleaned(candHist), listed, attempts, found)
  {
    var tried: set<string> := {};
    attempts, found := [], None;
    var k := 0;
    ghost var cleaned: seq<string> := [];
    while k < |candHist| && found.None?
      invariant 0 <= k <= |candHist|
      invariant cleaned == Cleaned(candHist[..k])
      invariant SearchState(cleaned, listed, attempts, found, tried)
    {
      var sc := Strip(candHist[k]);
      ghost var after := cleaned + (if sc == "" then [] else [sc]);
      CleanedStep(candHist, k);
      if sc == "" {
        assert after == cleaned;
      } else {
        SearchStep(cleaned, sc, listed, attempts, tried);
        if sc !in tried {
          tried := tried + {sc};
          attempts := attempts + [sc];
          if sc in listed {
            found := Some(sc);
          }
        }
      }
      cleaned := after;
      k := k + 1;
    }
    if found.Some? {
      CleanedPrefix(candHist, k);
      FirstListedLift(cleaned, Cleaned(candHist), listed, attempts, found.value);
    } else {
      assert candHist[..k] == candHist;
    }
  }

  /** Cleaning one more candidate appends it, stripped, unless it is blank. */
  lemma CleanedStep(candHist: seq<string>, k: nat)
    requires k < |candHist|
    ensures Cleaned(candHist[..k + 1]) == Cleaned(candHist[..k]) + (if Strip(candHist[k]) == "" then [] else [Strip(candHist[k])])
  {
    assert candHist[..k + 1][..k] == candHist[..k];
  }

  // ---------------------------------------------------------------------
  // Date column of a fetched table (_format_dataframe)
  // ---------------------------------------------------------------------

  /** The unified name of the date column. */
  const DateColumn: string := "日期"
  /** The column _format_dataframe adds with the market's name. */
  const MarketColumn: string := "市场"
  /** The names recognised as the date column, in order of preference. */
  const DateColumns: seq<string> := [DateColumn, "date", "Date", "datetime", "时间"]

  /** The position in DateColumns, from `from` on, of the first name the
      table has. */
  function PreferredFrom(columns: seq<string>, from: nat): (r: Option<nat>)
    requires from <= |DateColumns|
    ensures r.Some? ==> from <= r.value < |DateColumns| && DateColumns[r.value] in columns
    ensures r.Some? ==> forall j :: from <= j < r.value ==> DateColumns[j] !in columns
    ensures r.None? ==> forall j :: from <= j < |DateColumns| ==> DateColumns[j] !in columns
    decreases |DateColumns| - from
  {
    if from == |DateColumns| then None
    else if DateColumns[from] in columns then Some(from)
    else PreferredFrom(columns, from + 1)
  }

  /** The date column _format_dataframe settles on: the first of
      DateColumns that the table has. */
  function PreferredDateColumn(columns: seq<string>): (r: Option<string>)
    ensures r.Some? ==> r.value in columns
    ensures r.Some? ==> exists k :: 0 <= k < |DateColumns| && DateColumns[k] == r.value
                                    && forall j :: 0 <= j < k ==> DateColumns[j] !in columns
    ensures r.None? ==> forall j :: 0 <= j < |DateColumns| ==> DateColumns[j] !in columns
  {
    match PreferredFrom(columns, 0)
    case None => None
    case Some(k) => Some(DateColumns[k])
  }

  /** The scan over DateColumns (api.py:171-177). */
  method FindDateColumn(columns: seq<string>) returns (dateCol: Option<string>)
    ensures dateCol == PreferredDateColumn(columns)
  {
    dateCol := None;
    var k := 0;
    while k < |DateColumns|
      invariant 0 <= k <= |DateColumns|
      invariant PreferredFrom(columns, 0) == PreferredFrom(columns, k)
    {
      if DateColumns[k] in columns {
        dateCol := Some(DateColumns[k]);
        return;
      }
      k := k + 1;
    }
  }

  /** The header of a table after _format_dataframe (api.py:163-196): an
      empty table is returned as it is; otherwise the preferred date column
      (or, failing that, the first column) is renamed to the unified date
      name, and the market column is added unless it is already there.
      Type coercion and sorting change no column names and are not modelled. */
  function FormattedHeader(columns: seq<string>, rows: nat): (r: seq<string>)
    ensures rows == 0 || |columns| == 0 ==> r == columns
    ensures rows > 0 && |columns| > 0 ==> DateColumn in r && MarketColumn in r
    ensures rows > 0 && |columns| > 0 ==> |columns| <= |r| <= |columns| + 1
    ensures rows > 0 && PreferredDateColumn(columns).Some? ==>
      forall i :: 0 <= i < |columns| ==>
        r[i] == (if columns[i] == PreferredDateColumn(columns).value then DateColumn else columns[i])
    ensures rows > 0 && |columns| > 0 && PreferredDateColumn(columns).None? ==>
      forall i :: 0 <= i < |columns| ==> r[i] == (if columns[i] == columns[0] then DateColumn else columns[i])
  {
    if rows == 0 || |columns| == 0 then columns
    else
      var source := if PreferredDateColumn(columns).Some? then PreferredDateColumn(columns).value else columns[0];
      var renamed := Replace(columns, source, DateColumn);
      assert DateColumn in renamed by {
        var i :| 0 <= i < |columns| && columns[i] == source;
        assert renamed[i] == DateColumn;
      }
      if MarketColumn in renamed then renamed else renamed + [MarketColumn]
  }

  // ---------------------------------------------------------------------
  // Index names (get_index_history_by_name)
  // ---------------------------------------------------------------------

  /** The five index names and the exchange codes they stand for. */
  const IndexSymbols: map<string, string> := map[
    "上证50" := "sh000016",
    "沪深300" := "sh000300",
    "中证500" := "sh000905",
    "中证1000" := "sh000852",
    "创业板指" := "sz399006"
  ]

  /** What get_index_history_by_name passes on to get_index_history. */
  datatype IndexRequest = IndexRequest(symbol: string, startDate: Option<string>, endDate: Option<string>)

  /** get_index_history_by_name up to the fetch (api.py:489-507): a known
      name becomes a request for its code with the caller's dates; any other
      name gives None and nothing is fetched. */
  function IndexHistoryRequest(name: string, startDate: Option<string>, endDate: Option<string>)
    : (r: Option<IndexRequest>)
    ensures r.Some? <==> name in {"上证50", "沪深300", "中证500", "中证1000", "创业板指"}
    ensures r.Some? ==> r.value.startDate == startDate && r.value.endDate == endDate
    ensures r.Some? ==> |r.value.symbol| == 8 && r.value.symbol[..2] in {"sh", "sz"}
  {
    IndexSymbolsShape(name);
    if name in IndexSymbols then Some(IndexRequest(IndexSymbols[name], startDate, endDate)) else None
  }

  /** Every code is an exchange prefix followed by six digits. */
  lemma IndexSymbolsShape(name: string)
    ensures name in IndexSymbols ==>
      |IndexSymbols[name]| == 8 && IndexSymbols[name][..2] in {"sh", "sz"}
  {
    if name in IndexSymbols {
      var code := IndexSymbols[name];
      if name == "创业板指" {
        assert code[..2] == "sz";
      } else {
        assert code[..2] == "sh";
      }
    }
  }

  /** Different index names never share a code. */
  lemma IndexSymbolsDistinct(a: string, b: string)
    requires a in IndexSymbols && b in IndexSymbols && a != b
    ensures IndexSymbols[a] != IndexSymbols[b]
  {
  }

  // ---------------------------------------------------------------------
  // Bollinger bands and EMA columns
  // ---------------------------------------------------------------------

  /** One row of the four columns calculate_bollinger_bands adds:
      `SMA_p`, `STD_p`, `UpperBB_p_k`, `LowerBB_p_k`. */
  datatype Band = Band(middle: Option<real>, std: Option<real>, upper: Option<real>, lower: Option<real>)

  /** Standard deviations are never negative where they are present. */
  predicate NonNegative(stds: seq<Option<real>>)
  {
    forall i :: 0 <= i < |stds| ==> stds[i].Some? ==> stds[i].value >= 0.0
  }

  /** The band arithmetic of calculate_bollinger_bands (api.py:588-594):
      the middle band is the rolling mean of the close; the rolling standard
      deviation is given (the library computes it); upper and lower lie
      `k` deviations above and below the middle, and are missing wherever
      either input is. */
  function BollingerBands(closes: seq<real>, stds: seq<Option<real>>, period: nat, k: real): (r: seq<Band>)
    requires period >= 1 && |stds| == |closes|
    ensures |r| == |closes|
    ensures forall i :: 0 <= i < |r| ==> r[i].std == stds[i]
    ensures forall i :: 0 <= i < |r| ==> (r[i].middle.Some? <==> period <= i + 1)
    ensures forall i :: 0 <= i < |r| ==>
      (r[i].upper.Some? <==> r[i].middle.Some? && stds[i].Some?) && (r[i].lower.Some? <==> r[i].upper.Some?)
    ensures forall i :: 0 <= i < |r| && r[i].upper.Some? ==>
      r[i].upper.value - r[i].middle.value == k * stds[i].value == r[i].middle.value - r[i].lower.value
  {
    var prices := Lift(closes);
    seq(|closes|, i requires 0 <= i < |closes| =>
      var m := RollingMean(prices, period, i);
      if m.Some? && stds[i].Some? then
        Band(m, stds[i], Some(m.value + stds[i].value * k), Some(m.value - stds[i].value * k))
      else
        Band(m, stds[i], None, None))
  }

  /** With a non-negative multiplier the bands are ordered lower <= middle <= upper. */
  lemma BandsOrdered(closes: seq<real>, stds: seq<Option<real>>, period: nat, k: real, i: nat)
    requires period >= 1 && |stds| == |closes| && i < |closes|
    requires NonNegative(stds) && k >= 0.0
    ensures var b := BollingerBands(closes, stds, period, k)[i];
      b.upper.Some? ==> b.lower.value <= b.middle.value <= b.upper.value
  {
    var b := BollingerBands(closes, stds, period, k)[i];
    if b.upper.Some? {
      MulNonneg(k, stds[i].value);
    }
  }

  /** The middle band lies between the lowest and the highest close of its window. */
  lemma MiddleWithinWindow(closes: seq<real>, stds: seq<Option<real>>, period: nat, k: real, i: nat,
                           lo: real, hi: real)
    requires period >= 1 && |stds| == |closes| && period <= i + 1 && i < |closes|
    requires forall j :: i + 1 - period <= j <= i ==> lo <= closes[j] <= hi
    ensures var b := BollingerBands(closes, stds, period, k)[i];
      b.middle.Some? && lo <= b.middle.value <= hi
  {
    RollingMeanWithin(Lift(closes), period, i, lo, hi);
  }

  /** The columns of a price table that the two indicator helpers read and
      write: `close` and `收盘` (None when absent), the Bollinger columns by
      (period, multiplier) and the EMA columns by period. */
  datatype Frame = Frame(rows: nat, close: Option<seq<real>>, closeCn: Option<seq<real>>,
                         bands: map<(nat, real), seq<Band>>, emas: map<nat, seq<real>>)

  predicate WellFormed(f: Frame)
  {
    && (f.close.Some? ==> |f.close.value| == f.rows)
    && (f.closeCn.Some? ==> |f.closeCn.value| == f.rows)
  }

  /** calculate_bollinger_bands (api.py:580-597): a missing or empty table,
      or one without a `close` column, is returned unchanged. */
  function WithBollingerBands(df: Option<Frame>, stds: seq<Option<real>>, period: nat, k: real)
    : (r: Option<Frame>)
    requires period >= 1
    requires df.Some? ==> WellFormed(df.value) && |stds| == df.value.rows
    ensures df.None? || df.value.rows == 0 || df.value.close.None? ==> r == df
    ensures df.Some? && df.value.rows > 0 && df.value.close.Some? ==>
      r.Some? && (period, k) in r.value.bands
      && r.value.bands[(period, k)] == BollingerBands(df.value.close.value, stds, period, k)
      && r.value.(bands := df.value.bands) == df.value
      && forall key :: key in df.value.bands && key != (period, k) ==> key in r.value.bands && r.value.bands[key] == df.value.bands[key]
  {
    if df.None? || df.value.rows == 0 || df.value.close.None? then df
    else
      var f := df.value;
      Some(f.(bands := f.bands[(period, k) := BollingerBands(f.close.value, stds, period, k)]))
  }

  /** _calculate_ema (api.py:327-337): the EMA of the `收盘` column with
      `adjust=False`; a missing or empty table, or one without that column,
      is returned unchanged. */
  function WithEma(df: Option<Frame>, period: nat): (r: Option<Frame>)
    requires period >= 1
    requires df.Some? ==> WellFormed(df.value)
    ensures df.None? || df.value.rows == 0 || df.value.closeCn.None? ==> r == df
    ensures df.Some? && df.value.rows > 0 && df.value.closeCn.Some? ==>
      r.Some? && period in r.value.emas && |r.value.emas[period]| == df.value.rows
      && r.value.emas[period][0] == df.value.closeCn.value[0]
      && r.value.(emas := df.value.emas) == df.value
    ensures df.Some? && df.value.rows > 0 && df.value.closeCn.Some? ==>
      r.value.emas == df.value.emas[period := Ewm(df.value.closeCn.value, period)]
  {
    if df.None? || df.value.rows == 0 || df.value.closeCn.None? then df
    else
      var f := df.value;
      EwmRecurrence(f.closeCn.value, period, 0);
      Some(f.(emas := f.emas[period := Ewm(f.closeCn.value, period)]))
  }
}
