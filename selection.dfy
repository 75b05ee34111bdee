/**
 * The research agent's enrichment selection (agents/crewai_agent.py):
 * keyword inference over the lower-cased task text, the three extraction
 * heuristics (city, `$` stock symbol, encyclopedia query), the merge with the
 * caller's explicit choices, and the `apis_used` report.
 *
 * The selection is the dictionary the agent builds, keyed by `Key`.
 */
module Selection {
  import opened Common
  import opened Text

  // Message texts.
  const IndexErrorNote: string := "list index out of range"

  /** The keys of the selection dictionary. */
  datatype Key =
    | UseWebSearch | UseNews | UseWeather | UseGeolocation | UseStockData | UseWikipedia
    | City | StockSymbol | WikipediaQuery | IpAddress

  type Selection = map<Key, Value>

  /** The `use_*` keys, in the order the dictionaries insert them. */
  const FlagKeys: seq<Key> := [UseWebSearch, UseNews, UseWeather, UseGeolocation, UseStockData, UseWikipedia]

  /** The keys the inferred selection holds. */
  const InferredKeys: set<Key> :=
    {UseWebSearch, UseNews, UseWeather, UseGeolocation, UseStockData, UseWikipedia, City, StockSymbol, WikipediaQuery}

  /** The keys the manual selection holds. */
  const ManualKeys: set<Key> := InferredKeys + {IpAddress}

  /** Whether a key's name starts with `use_`. */
  predicate IsFlagKey(k: Key)
  {
    Rank(k) < 6
  }

  /** The position of a `use_*` key in the dictionaries' order; 6 for the others. */
  function Rank(k: Key): nat
  {
    match k
    case UseWebSearch => 0
    case UseNews => 1
    case UseWeather => 2
    case UseGeolocation => 3
    case UseStockData => 4
    case UseWikipedia => 5
    case _ => 6
  }

  // ---------------------------------------------------------------------------
  // Keyword lists

  const WebKeywords: seq<string> := ["research", "find", "search", "information", "about", "what is", "how to", "explain"]
  const NewsKeywords: seq<string> := ["news", "latest", "recent", "current", "today", "trend"]
  const WeatherKeywords: seq<string> := ["weather", "temperature", "climate"]
  const GeoKeywords: seq<string> := ["location", "geolocation", "ip", "where am i"]
  const StockKeywords: seq<string> := ["stock", "share price", "market value"]
  const WikiKeywords: seq<string> := ["define", "meaning", "history", "biography", "scientist", "inventor", "theory"]
  const CityMarkers: seq<string> := ["in", "at", "for"]

  /** `any(keyword in text for keyword in keywords)` */
  predicate Mentions(text: string, keywords: seq<string>)
  {
    exists k :: k in keywords && Contains(text, k)
  }

  // ---------------------------------------------------------------------------
  // City: the word after a marker word, the last such marker winning

  /** A marker word at position `i` that is not the last word. */
  predicate MarkerAt(words: seq<string>, i: int)
  {
    0 <= i && i + 1 < |words| && words[i] in CityMarkers
  }

  /** The extraction loop as written: a forward pass with no `break`, each
      marker overwriting what an earlier one found. */
  function CityScan(words: seq<string>, i: nat, found: Value): Value
    decreases |words| - i
  {
    if i >= |words| then found
    else CityScan(words, i + 1, if MarkerAt(words, i) then Str(Capitalize(words[i + 1])) else found)
  }

  /** The city taken from the lower-cased task text. */
  function CityOf(low: string): Value
  {
    CityScan(Words(low), 0, Null)
  }

  /** With no marker at or after `i`, the scan keeps what it had. */
  lemma {:induction false} CityScanNone(words: seq<string>, i: nat, found: Value)
    requires forall j :: i <= j ==> !MarkerAt(words, j)
    ensures CityScan(words, i, found) == found
    decreases |words| - i
  {
    if i < |words| {
      CityScanNone(words, i + 1, found);
    }
  }

  /** The scan ends with the word after the last marker at or after `i`. */
  lemma {:induction false} CityScanLast(words: seq<string>, i: nat, found: Value, m: nat)
    requires i <= m && MarkerAt(words, m) && forall j :: m < j ==> !MarkerAt(words, j)
    ensures CityScan(words, i, found) == Str(Capitalize(words[m + 1]))
    decreases |words| - i
  {
    var next := if MarkerAt(words, i) then Str(Capitalize(words[i + 1])) else found;
    assert CityScan(words, i, found) == CityScan(words, i + 1, next);
    if i == m {
      CityScanNone(words, i + 1, next);
    } else {
      CityScanLast(words, i + 1, next, m);
    }
  }

  /** The marker at `m` is the last one. */
  predicate LastMarker(words: seq<string>, m: int)
  {
    MarkerAt(words, m) && forall j :: m < j < |words| ==> !MarkerAt(words, j)
  }

  /** When some marker exists, so does a last one. */
  lemma {:induction false} LastMarkerExists(words: seq<string>, i: int)
    requires MarkerAt(words, i)
    ensures exists m :: LastMarker(words, m)
    decreases |words| - i
  {
    if !LastMarker(words, i) {
      var j :| i < j && MarkerAt(words, j);
      LastMarkerExists(words, j);
    }
  }

  /** The city is the capitalised word after the LAST `in`/`at`/`for` that is
      not the final word; there is none exactly when no such marker exists. */
  lemma CityIsAfterLastMarker(low: string, m: int)
    requires LastMarker(Words(low), m)
    ensures CityOf(low) == Str(Capitalize(Words(low)[m + 1]))
  {
    CityScanLast(Words(low), 0, Null, m);
  }

  /** In "<word> in <city>" the city is the word after "in", capitalised. */
  lemma CityAfterIn(w: string, city: string)
    requires |w| > 0 && NoSpace(w) && w !in CityMarkers
    requires |city| > 0 && NoSpace(city)
    ensures CityOf(w + " in " + city) == Str(Capitalize(city))
  {
    assert w + " in " + city == w + " " + ("in" + " " + city);
    assert NoSpace("in");
    WordsOfThree(w, "in", city);
    CityScanLast([w, "in", city], 0, Null, 1);
  }

  lemma WordsOfThree(a: string, b: string, c: string)
    requires |a| > 0 && NoSpace(a) && |b| > 0 && NoSpace(b) && |c| > 0 && NoSpace(c)
    ensures Words(a + " " + (b + " " + c)) == [a, b, c]
  {
    WordsCons(a, b + " " + c);
    WordsCons(b, c);
    WordsSingle(c);
  }

  /** "weather in Tokyo", once lower-cased, names the city "Tokyo". */
  lemma CityOfTokyo()
    ensures CityOf("weather in tokyo") == Str("Tokyo")
  {
    assert "weather in tokyo" == "weather" + " in " + "tokyo";
    assert NoSpace("weather") && NoSpace("tokyo");
    CityAfterIn("weather", "tokyo");
    CapitalizeTokyo();
  }

  lemma CapitalizeTokyo()
    ensures Capitalize("tokyo") == "Tokyo"
  {
    assert "tokyo"[1..] == "okyo";
    LowerIs("okyo", "okyo");
  }

  /** No city is extracted exactly when no marker precedes another word. */
  lemma CityAbsent(low: string)
    ensures CityOf(low) == Null <==> NoMarker(Words(low))
  {
    ScanAbsent(Words(low));
  }

  predicate NoMarker(words: seq<string>)
  {
    forall j :: 0 <= j < |words| ==> !MarkerAt(words, j)
  }

  lemma ScanAbsent(words: seq<string>)
    ensures CityScan(words, 0, Null) == Null <==> NoMarker(words)
  {
    if NoMarker(words) {
      CityScanNone(words, 0, Null);
    } else {
      var i :| MarkerAt(words, i);
      LastMarkerExists(words, i);
      var m :| LastMarker(words, m);
      CityScanLast(words, 0, Null, m);
    }
  }

  // ---------------------------------------------------------------------------
  // Stock symbol and encyclopedia query

  /** `text.split("$")[1].split()[0].upper()` when `$` occurs; Python raises
      `IndexError` when nothing but whitespace follows the first `$`. */
  function SymbolOf(low: string): (r: Attempt<Value>)
    ensures !Contains(low, "$") ==> r == Ok(Null)
    ensures Contains(low, "$") && Words(SecondPart(low, "$")) == [] ==> r.Raised?
    ensures Contains(low, "$") && Words(SecondPart(low, "$")) != [] ==>
              r == Ok(Str(Upper(Words(SecondPart(low, "$"))[0])))
  {
    if !Contains(low, "$") then Ok(Null)
    else
      var words := Words(SecondPart(low, "$"));
      if words == [] then Raised(IndexErrorNote)
      else Ok(Str(Upper(words[0])))
  }

  /** The symbol is the first word after a lone `$`, upper-cased. */
  lemma SymbolAfterDollar(pre: string, symbol: string, rest: string)
    requires '$' !in pre && '$' !in symbol + " " + rest
    requires |symbol| > 0 && NoSpace(symbol)
    ensures SymbolOf(pre + "$" + (symbol + " " + rest)) == Ok(Str(Upper(symbol)))
  {
    SecondPartOfChar(pre, '$', symbol + " " + rest);
    WordsCons(symbol, rest);
  }

  /** "stock price of $TSLA today", once lower-cased, names the symbol "TSLA". */
  lemma SymbolOfTsla()
    ensures SymbolOf("stock price of $tsla today") == Ok(Str("TSLA"))
  {
    assert "stock price of $tsla today" == "stock price of " + "$" + ("tsla" + " " + "today");
    assert NoSpace("tsla");
    SymbolAfterDollar("stock price of ", "tsla", "today");
    UpperTsla();
  }

  lemma UpperTsla()
    ensures Upper("tsla") == "TSLA"
  {
    var s, t := "tsla", "TSLA";
    assert s[0] == 't' && s[1] == 's' && s[2] == 'l' && s[3] == 'a';
    assert t[0] == 'T' && t[1] == 'S' && t[2] == 'L' && t[3] == 'A';
    UpperIs(s, t);
  }

  /** The encyclopedia query: the stripped text after the first "who is"
      (checked first), else after the first "what is", each up to the next
      occurrence of that phrase; else the first 50 characters of the task in
      its original case. */
  function WikiQueryOf(task: string, low: string): Value
  {
    if Contains(low, "who is") then Str(Strip(SecondPart(low, "who is")))
    else if Contains(low, "what is") then Str(Strip(SecondPart(low, "what is")))
    else Str(Take(task, 50))
  }

  /** "who is" is looked for first: once it occurs, the query is the stripped
      text after its first occurrence, whether or not "what is" occurs too,
      and the query never holds the phrase it was cut at. */
  lemma WhoIsFirst(task: string, low: string)
    requires Contains(low, "who is")
    ensures WikiQueryOf(task, low) == Str(Strip(SecondPart(low, "who is")))
    ensures !Contains(WikiQueryOf(task, low).s, "who is")
    ensures |WikiQueryOf(task, low).s| + |"who is"| <= |low|
  {
    StripKeepsAbsent(SecondPart(low, "who is"), "who is");
  }

  /** Without "who is", a "what is" gives the stripped text after it. */
  lemma WhatIsNext(task: string, low: string)
    requires !Contains(low, "who is") && Contains(low, "what is")
    ensures WikiQueryOf(task, low) == Str(Strip(SecondPart(low, "what is")))
    ensures !Contains(WikiQueryOf(task, low).s, "what is")
    ensures |WikiQueryOf(task, low).s| + |"what is"| <= |low|
  {
    StripKeepsAbsent(SecondPart(low, "what is"), "what is");
  }

  /** With neither phrase, the query is the task's first 50 characters in
      their original case, or the whole task when it is shorter. */
  lemma WikiQueryFallback(task: string, low: string)
    requires !Contains(low, "who is") && !Contains(low, "what is")
    ensures WikiQueryOf(task, low).Str?
    ensures WikiQueryOf(task, low).s <= task
    ensures |WikiQueryOf(task, low).s| == if |task| <= 50 then |task| else 50
  {
  }

  /** Stripping cannot create an occurrence. */
  lemma StripKeepsAbsent(x: string, p: string)
    requires !Contains(x, p)
    ensures !Contains(Strip(x), p)
  {
    StripRemovesOuterSpace(x);
    var a, b :| 0 <= a <= b <= |x| && Strip(x) == x[a..b];
    NotContainedInSlice(x, p, a, b);
  }

  // ---------------------------------------------------------------------------
  // Automatic selection

  /** `auto_select_apis(task_description)` */
  function AutoSelectApis(task: string): (r: Attempt<Selection>)
    ensures r.Ok? ==> r.value.Keys == InferredKeys
    ensures r.Raised? ==> Mentions(Lower(task), StockKeywords) && SymbolOf(Lower(task)).Raised?
  {
    var low := Lower(task);
    var weather := Mentions(low, WeatherKeywords);
    var stock := Mentions(low, StockKeywords);
    var wiki := Mentions(low, WikiKeywords);
    var symbol := if stock then SymbolOf(low) else Ok(Null);
    if symbol.Raised? then Raised(symbol.error)
    else
      Ok(map[
        UseWebSearch := Flag(Mentions(low, WebKeywords)),
        UseNews := Flag(Mentions(low, NewsKeywords)),
        UseWeather := Flag(weather),
        UseGeolocation := Flag(Mentions(low, GeoKeywords)),
        UseStockData := Flag(stock),
        UseWikipedia := Flag(wiki),
        City := if weather then CityOf(low) else Null,
        StockSymbol := symbol.value,
        WikipediaQuery := if wiki then WikiQueryOf(task, low) else Null
      ])
  }

  /** Every flag is the keyword test of its own list, and each parameter is
      extracted only when its flag is on. */
  lemma AutoSelectFlags(task: string)
    requires AutoSelectApis(task).Ok?
    ensures var sel, low := AutoSelectApis(task).value, Lower(task);
      && sel[UseWebSearch] == Flag(Mentions(low, WebKeywords))
      && sel[UseNews] == Flag(Mentions(low, NewsKeywords))
      && sel[UseWeather] == Flag(Mentions(low, WeatherKeywords))
      && sel[UseGeolocation] == Flag(Mentions(low, GeoKeywords))
      && sel[UseStockData] == Flag(Mentions(low, StockKeywords))
      && sel[UseWikipedia] == Flag(Mentions(low, WikiKeywords))
      && sel[City] == (if Mentions(low, WeatherKeywords) then CityOf(low) else Null)
      && sel[StockSymbol] == (if Mentions(low, StockKeywords) then SymbolOf(low).value else Null)
      && sel[WikipediaQuery] == (if Mentions(low, WikiKeywords) then WikiQueryOf(task, low) else Null)
  {
  }

  /** Text with no keyword at all selects nothing and extracts nothing. */
  lemma NothingMentioned(task: string)
    requires var low := Lower(task);
      && !Mentions(low, WebKeywords) && !Mentions(low, NewsKeywords) && !Mentions(low, WeatherKeywords)
      && !Mentions(low, GeoKeywords) && !Mentions(low, StockKeywords) && !Mentions(low, WikiKeywords)
    ensures AutoSelectApis(task).Ok?
    ensures var sel := AutoSelectApis(task).value;
      forall k :: k in sel ==> !Truthy(sel[k])
  {
  }

  /** The selection depends on the text only through its lower-cased form,
      except for the encyclopedia fallback query, which keeps the original
      case. */
  lemma {:induction false} CaseInsensitive(task: string)
    ensures AutoSelectApis(task).Ok? <==> AutoSelectApis(Lower(task)).Ok?
    ensures AutoSelectApis(task).Ok? ==>
      var a, b := AutoSelectApis(task).value, AutoSelectApis(Lower(task)).value;
      forall k :: k in a && k != WikipediaQuery ==> k in b && a[k] == b[k]
    ensures AutoSelectApis(task).Ok? ==>
      var low := Lower(task);
      Contains(low, "who is") || Contains(low, "what is") ==>
        AutoSelectApis(task).value[WikipediaQuery] == AutoSelectApis(low).value[WikipediaQuery]
  {
    LowerIdempotent(task);
  }

  /** A stock symbol is only extracted when a stock keyword is present, and it
      is a non-empty upper-case word. */
  lemma SymbolNeedsStockKeyword(task: string)
    requires AutoSelectApis(task).Ok?
    ensures var sel := AutoSelectApis(task).value;
      sel[StockSymbol] != Null ==>
        && Mentions(Lower(task), StockKeywords)
        && Contains(Lower(task), "$")
        && sel[StockSymbol].Str?
        && |sel[StockSymbol].s| > 0
        && NoSpace(sel[StockSymbol].s)
        && forall i :: 0 <= i < |sel[StockSymbol].s| ==> !('a' <= sel[StockSymbol].s[i] <= 'z')
  {
    var sel, low := AutoSelectApis(task).value, Lower(task);
    if sel[StockSymbol] != Null {
      var w := Words(SecondPart(low, "$"))[0];
      assert sel[StockSymbol] == Str(Upper(w));
      UpperHasNoLower(w);
      forall i | 0 <= i < |w|
        ensures !IsSpace(Upper(w)[i])
      {
        UpperAt(w, i);
      }
    }
  }

  // ---------------------------------------------------------------------------
  // Merging with the caller's choices

  /** Every key belongs to the manual selection. */
  lemma AllKeysManual()
    ensures forall k: Key :: k in ManualKeys
  {
    forall k: Key
      ensures k in ManualKeys
    {
      match k
      case UseWebSearch => case UseNews => case UseWeather => case UseGeolocation =>
      case UseStockData => case UseWikipedia => case City => case StockSymbol =>
      case WikipediaQuery => case IpAddress =>
    }
  }

  /** What the manual selection holds for a key the caller did not give. */
  function Default(k: Key): Value
  {
    if IsFlagKey(k) then Flag(false) else Null
  }

  /** The selection `execute_task` works with: in automatic mode the inferred
      dictionary updated with the caller's keyword arguments; in manual mode
      every key taken from the caller or defaulted. */
  function MergeSelection(task: string, auto: bool, kwargs: map<Key, Value>): (r: Attempt<Selection>)
    ensures r.Raised? <==> auto && AutoSelectApis(task).Raised?
    ensures r.Ok? ==> InferredKeys <= r.value.Keys
    ensures r.Ok? ==> forall k :: k in kwargs ==> k in r.value && r.value[k] == kwargs[k]
    ensures r.Ok? && auto ==>
      var inferred := AutoSelectApis(task).value;
      forall k :: k in inferred && k !in kwargs ==> r.value[k] == inferred[k]
    ensures !auto ==> r.Ok? && r.value.Keys == ManualKeys
    ensures r.Ok? && !auto ==> forall k :: k in ManualKeys && k !in kwargs ==> r.value[k] == Default(k)
  {
    AllKeysManual();
    if auto then
      match AutoSelectApis(task)
      case Ok(inferred) => Ok(inferred + kwargs)
      case Raised(e) => Raised(e)
    else
      Ok(map k | k in ManualKeys :: if k in kwargs then kwargs[k] else Default(k))
  }

  // ---------------------------------------------------------------------------
  // `apis_used`

  /** The `use_*` keys from position `n` of `FlagKeys` on whose value is truthy. */
  function UsedFrom(sel: Selection, n: nat): (r: seq<Key>)
    requires n <= 6
    decreases 6 - n
    ensures |r| <= 6 - n
    ensures forall i :: 0 <= i < |r| ==> n <= Rank(r[i]) < 6
    ensures forall i, j :: 0 <= i < j < |r| ==> Rank(r[i]) < Rank(r[j])
  {
    if n == 6 then []
    else
      var k := FlagKeys[n];
      (if k in sel && Truthy(sel[k]) then [k] else []) + UsedFrom(sel, n + 1)
  }

  /** `[k for k, v in api_selection.items() if v and k.startswith("use_")]` */
  function ApisUsed(sel: Selection): (r: seq<Key>)
    ensures forall i, j :: 0 <= i < j < |r| ==> Rank(r[i]) < Rank(r[j])
  {
    UsedFrom(sel, 0)
  }

  lemma RankOfFlagKeys(n: nat)
    requires n < 6
    ensures Rank(FlagKeys[n]) == n
  {
    if n == 0 {} else if n == 1 {} else if n == 2 {} else if n == 3 {} else if n == 4 {} else {}
  }

  lemma RankInjective(a: Key, b: Key)
    requires Rank(a) == Rank(b) < 6
    ensures a == b
  {
  }

  lemma {:induction false} UsedFromMembers(sel: Selection, n: nat, k: Key)
    requires n <= 6
    ensures k in UsedFrom(sel, n) <==> n <= Rank(k) < 6 && k in sel && Truthy(sel[k])
    decreases 6 - n
  {
    if n < 6 {
      UsedFromMembers(sel, n + 1, k);
      var f := FlagKeys[n];
      RankOfFlagKeys(n);
      if Rank(k) == n {
        RankInjective(k, f);
      }
    }
  }

  /** `apis_used` holds exactly the `use_*` keys whose value is truthy, each
      once, in dictionary order. */
  lemma ApisUsedExactly(sel: Selection)
    ensures forall k :: k in ApisUsed(sel) <==> IsFlagKey(k) && k in sel && Truthy(sel[k])
    ensures |ApisUsed(sel)| <= 6
  {
    forall k
      ensures k in ApisUsed(sel) <==> IsFlagKey(k) && k in sel && Truthy(sel[k])
    {
      UsedFromMembers(sel, 0, k);
    }
  }
}
