/** Crash-safe interface settings (trader/settings_store.py). */
module Settings {
  import opened Common
  import opened Decimals

  const SCHEMA_VERSION := 1
  const MAX_WATCHLIST_SYMBOLS := 10
  const MAX_SYMBOL := 15
  const MAX_HISTORY := 100

  datatype Entry = Entry(symbol: string, lastUsed: string, usageCount: int)

  datatype UISettings = UISettings(
    schemaVersion: int, watchlistSource: string, manualSymbols: seq<string>, symbolHistory: seq<Entry>,
    theme: string, dense: bool, unicodeSymbols: bool)

  const DEFAULTS := UISettings(SCHEMA_VERSION, "MANUAL", [], [], "openwallstreet-dark", false, true)

  /** Rejected covers the exceptions that load() catches; NoSuchMethod, raised for a symbol that is not text, is not
      among them. */
  datatype Fault = Rejected(why: string) | NoSuchMethod

  // --------------------------------------------------------------------- symbols

  predicate IsSpace(c: char) {
    c in {' ', '\t', '\n', '\r', 0x0b as char, 0x0c as char, 0x1c as char, 0x1d as char, 0x1e as char, 0x1f as char}
  }

  function LStrip(s: string): (r: string)
    ensures r != "" ==> !IsSpace(r[0])
    ensures s != "" && !IsSpace(s[0]) ==> r == s
  {
    if s != "" && IsSpace(s[0]) then LStrip(s[1..]) else s
  }

  function RStrip(s: string): (r: string)
    ensures s != "" && !IsSpace(s[|s| - 1]) ==> r == s
  {
    if s != "" && IsSpace(s[|s| - 1]) then RStrip(s[..|s| - 1]) else s
  }

  predicate IsSymbolChar(c: char) {
    IsUpper(c) || IsDigit(c) || c == '.' || c == '-'
  }

  /** What a symbol must look like. */
  predicate IsSymbol(s: string) {
    && 1 <= |s| <= MAX_SYMBOL && (IsUpper(s[0]) || IsDigit(s[0]))
    && forall i :: 0 <= i < |s| ==> IsSymbolChar(s[i])
  }

  function NormalizeSymbol(raw: string): (r: Result<string, Fault>)
    ensures r.Ok? ==> IsSymbol(r.value)
  {
    var symbol := Upper(RStrip(LStrip(raw)));
    if symbol == "" then Err(Rejected("empty"))
    else if !IsSymbol(symbol) then Err(Rejected("malformed"))
    else Ok(symbol)
  }

  /** Normal symbols are left alone. */
  lemma {:induction false} NormalSymbols(s: string)
    requires IsSymbol(s)
    ensures NormalizeSymbol(s) == Ok(s)
  {
    assert IsSymbolChar(s[0]) && IsSymbolChar(s[|s| - 1]);
    assert forall i :: 0 <= i < |s| ==> IsSymbolChar(s[i]) && UpperChar(s[i]) == s[i];
    assert Upper(s) == s;
  }

  /** The first `n` values, or the first fault found in them. */
  function NormalizedUpTo(values: seq<Json>, n: nat): Result<seq<string>, Fault>
    requires n <= |values|
  {
    if n == 0 then Ok([])
    else
      match NormalizedUpTo(values, n - 1)
      case Err(e) => Err(e)
      case Ok(done) =>
        match values[n - 1]
        case JStr(raw) =>
          (match NormalizeSymbol(raw)
           case Err(e) => Err(e)
           case Ok(symbol) => if symbol in done then Err(Rejected("duplicate")) else Ok(done + [symbol]))
        case _ => Err(NoSuchMethod)
  }

  function Normalized(values: seq<Json>): Result<seq<string>, Fault> {
    match NormalizedUpTo(values, |values|)
    case Err(e) => Err(e)
    case Ok(symbols) => if |symbols| > MAX_WATCHLIST_SYMBOLS then Err(Rejected("too many")) else Ok(symbols)
  }

  method NormalizeSymbols(values: seq<Json>) returns (r: Result<seq<string>, Fault>)
    ensures r == Normalized(values)
  {
    hide NormalizeSymbol, IsSymbol;
    var normalized: seq<string> := [];
    for i := 0 to |values|
      invariant NormalizedUpTo(values, i) == Ok(normalized)
    {
      StillFaulty(values, i + 1);
      match values[i]
      case JStr(raw) =>
        var symbol := NormalizeSymbol(raw);
        if symbol.Err? {
          return Err(symbol.error);
        }
        if symbol.value in normalized {
          return Err(Rejected("duplicate"));
        }
        normalized := normalized + [symbol.value];
      case _ =>
        return Err(NoSuchMethod);
    }
    if |normalized| > MAX_WATCHLIST_SYMBOLS {
      return Err(Rejected("too many"));
    }
    return Ok(normalized);
  }

  lemma {:induction false} FaultsStay(values: seq<Json>, n: nat, m: nat)
    requires n <= m <= |values| && NormalizedUpTo(values, n).Err?
    ensures NormalizedUpTo(values, m) == NormalizedUpTo(values, n)
  {
    if n < m {
      FaultsStay(values, n, m - 1);
    }
  }

  lemma StillFaulty(values: seq<Json>, n: nat)
    requires n <= |values|
    ensures NormalizedUpTo(values, n).Err? ==> Normalized(values) == NormalizedUpTo(values, n)
  {
    if NormalizedUpTo(values, n).Err? {
      FaultsStay(values, n, |values|);
    }
  }

  predicate Distinct(s: seq<string>) {
    forall i, j :: 0 <= i < j < |s| ==> s[i] != s[j]
  }

  predicate IsWatchlist(symbols: seq<string>) {
    && |symbols| <= MAX_WATCHLIST_SYMBOLS && Distinct(symbols)
    && forall i :: 0 <= i < |symbols| ==> IsSymbol(symbols[i])
  }

  function Texts(symbols: seq<string>): (r: seq<Json>)
    ensures |r| == |symbols| && forall i :: 0 <= i < |symbols| ==> r[i] == JStr(symbols[i])
  {
    seq(|symbols|, i requires 0 <= i < |symbols| => JStr(symbols[i]))
  }

  lemma {:induction false} NormalizedSymbols(values: seq<Json>, n: nat)
    requires n <= |values| && NormalizedUpTo(values, n).Ok?
    ensures var s := NormalizedUpTo(values, n).value;
            |s| == n && Distinct(s) && forall i :: 0 <= i < n ==> IsSymbol(s[i])
  {
    if n > 0 {
      NormalizedSymbols(values, n - 1);
      var done := NormalizedUpTo(values, n - 1).value;
      assert forall i :: 0 <= i < |done| ==> done[i] in done;
    }
  }

  lemma {:induction false} WatchlistUpTo(symbols: seq<string>, n: nat)
    requires n <= |symbols| && Distinct(symbols) && forall i :: 0 <= i < |symbols| ==> IsSymbol(symbols[i])
    ensures NormalizedUpTo(Texts(symbols), n) == Ok(symbols[..n])
  {
    hide NormalizeSymbol, IsSymbol;
    if n > 0 {
      WatchlistUpTo(symbols, n - 1);
      NormalSymbols(symbols[n - 1]);
      assert symbols[..n] == symbols[..n - 1] + [symbols[n - 1]];
      assert symbols[n - 1] !in symbols[..n - 1];
    }
  }

  /** Normalising gives a watchlist, and leaves exactly the watchlists alone. */
  lemma NormalizedIsWatchlist(values: seq<Json>)
    requires Normalized(values).Ok?
    ensures IsWatchlist(Normalized(values).value)
  {
    NormalizedSymbols(values, |values|);
  }

  lemma WatchlistsStay(symbols: seq<string>)
    ensures Normalized(Texts(symbols)) == Ok(symbols) <==> IsWatchlist(symbols)
  {
    hide NormalizedUpTo, IsSymbol;
    if IsWatchlist(symbols) {
      WatchlistUpTo(symbols, |symbols|);
      assert symbols[..|symbols|] == symbols;
    } else if Normalized(Texts(symbols)) == Ok(symbols) {
      NormalizedIsWatchlist(Texts(symbols));
    }
  }

  // --------------------------------------------------------------------- ranking

  /** Strings compare as Python compares them. */
  predicate TextLess(a: string, b: string) {
    if b == "" then false
    else if a == "" then true
    else a[0] < b[0] || (a[0] == b[0] && TextLess(a[1..], b[1..]))
  }

  predicate Outranks(a: Entry, b: Entry) {
    a.usageCount > b.usageCount || (a.usageCount == b.usageCount && TextLess(b.lastUsed, a.lastUsed))
  }

  predicate Sorted(s: seq<Entry>) {
    forall i, j :: 0 <= i < j < |s| ==> !Outranks(s[j], s[i])
  }

  /** After the entries it does not outrank. */
  function Insert(s: seq<Entry>, e: Entry): (r: seq<Entry>)
    ensures multiset(r) == multiset(s) + multiset{e} && |r| == |s| + 1
  {
    assert s != [] ==> s == s[..|s| - 1] + [s[|s| - 1]];
    if s == [] || !Outranks(e, s[|s| - 1]) then s + [e]
    else Insert(s[..|s| - 1], e) + [s[|s| - 1]]
  }

  /** Stable, the most used first. */
  function Ranked(s: seq<Entry>): (r: seq<Entry>)
    ensures multiset(r) == multiset(s) && |r| == |s|
  {
    if s == [] then []
    else
      assert s == s[..|s| - 1] + [s[|s| - 1]];
      Insert(Ranked(s[..|s| - 1]), s[|s| - 1])
  }

  function Top(s: seq<Entry>): (r: seq<Entry>)
    ensures |r| <= MAX_HISTORY && r <= s
  {
    if |s| <= MAX_HISTORY then s else s[..MAX_HISTORY]
  }

  lemma {:induction false} TextLessIsTransitive(a: string, b: string, c: string)
    requires TextLess(a, b) && TextLess(b, c)
    ensures TextLess(a, c)
  {
    if a != "" && a[0] == b[0] == c[0] {
      TextLessIsTransitive(a[1..], b[1..], c[1..]);
    }
  }

  lemma {:induction false} TextLessIsLinear(a: string, b: string)
    ensures TextLess(a, b) || TextLess(b, a) || a == b
    ensures !(TextLess(a, b) && TextLess(b, a))
  {
    if a != "" && b != "" && a[0] == b[0] {
      TextLessIsLinear(a[1..], b[1..]);
      assert a == [a[0]] + a[1..] && b == [b[0]] + b[1..];
    }
  }

  /** Not being outranked is transitive. */
  lemma RankIsTransitive(a: Entry, b: Entry, c: Entry)
    requires !Outranks(b, a) && !Outranks(c, b)
    ensures !Outranks(c, a)
  {
    if Outranks(c, a) {
      TextLessIsLinear(a.lastUsed, b.lastUsed);
      TextLessIsLinear(b.lastUsed, c.lastUsed);
      if a.usageCount == b.usageCount == c.usageCount {
        if b.lastUsed != a.lastUsed {
          TextLessIsTransitive(b.lastUsed, a.lastUsed, c.lastUsed);
        }
      }
    }
  }

  lemma RankIsStrict(a: Entry, b: Entry)
    ensures Outranks(a, b) ==> !Outranks(b, a)
  {
    TextLessIsLinear(a.lastUsed, b.lastUsed);
  }

  lemma SortedWith(s: seq<Entry>, e: Entry)
    requires Sorted(s) && forall x :: x in s ==> !Outranks(e, x)
    ensures Sorted(s + [e])
  {
    hide Outranks;
  }

  lemma {:induction false} InsertSorts(s: seq<Entry>, e: Entry)
    requires Sorted(s)
    ensures Sorted(Insert(s, e))
    ensures forall x :: x in Insert(s, e) <==> x in s || x == e
  {
    hide Outranks;
    var n := |s| - 1;
    if s == [] {
    } else if !Outranks(e, s[n]) {
      forall i | 0 <= i < |s|
        ensures !Outranks(e, s[i])
      {
        if i < n {
          RankIsTransitive(s[i], s[n], e);
        }
      }
    } else {
      InsertSorts(s[..n], e);
      RankIsStrict(e, s[n]);
      SortedWith(Insert(s[..n], e), s[n]);
    }
  }

  lemma {:induction false} RankedIsSorted(s: seq<Entry>)
    ensures Sorted(Ranked(s))
  {
    if s != [] {
      RankedIsSorted(s[..|s| - 1]);
      InsertSorts(Ranked(s[..|s| - 1]), s[|s| - 1]);
    }
  }

  lemma {:induction false} SortedStays(s: seq<Entry>)
    requires Sorted(s)
    ensures Ranked(s) == s
  {
    if s != [] {
      SortedStays(s[..|s| - 1]);
      assert s == s[..|s| - 1] + [s[|s| - 1]];
    }
  }

  predicate Tie(a: Entry, b: Entry) {
    a.usageCount == b.usageCount && a.lastUsed == b.lastUsed
  }

  function Ties(s: seq<Entry>, k: Entry): seq<Entry> {
    if s == [] then []
    else Ties(s[..|s| - 1], k) + if Tie(s[|s| - 1], k) then [s[|s| - 1]] else []
  }

  lemma {:induction false} InsertKeepsTies(s: seq<Entry>, e: Entry, k: Entry)
    ensures Ties(Insert(s, e), k) == Ties(s, k) + if Tie(e, k) then [e] else []
  {
    var n := |s| - 1;
    if s == [] || !Outranks(e, s[n]) {
      assert (s + [e])[..|s|] == s;
    } else {
      InsertKeepsTies(s[..n], e, k);
      var front := Insert(s[..n], e);
      assert (front + [s[n]])[..|front|] == front;
      TextLessIsLinear(e.lastUsed, s[n].lastUsed);
    }
  }

  /** Entries that rank the same keep their order. */
  lemma {:induction false} RankedIsStable(s: seq<Entry>, k: Entry)
    ensures Ties(Ranked(s), k) == Ties(s, k)
  {
    if s != [] {
      RankedIsStable(s[..|s| - 1], k);
      InsertKeepsTies(Ranked(s[..|s| - 1]), s[|s| - 1], k);
    }
  }

  // -------------------------------------------------------------- decoding a file

  /** How str() prints a value that is not text, and in which order an object lists its keys: any way at all. */
  datatype Python = Python(show: Json -> string, keys: map<string, Json> -> seq<string>)

  function Get(fields: map<string, Json>, key: string, other: Json): Json {
    if key in fields then fields[key] else other
  }

  function Str(py: Python, j: Json): string {
    if j.JStr? then j.text else py.show(j)
  }

  /** int(j), unless it raises. */
  function Int(j: Json): Option<int> {
    match j
    case JNum(x) => Some(Trunc(x))
    case JBool(b) => Some(if b then 1 else 0)
    case JStr(s) => IntOf(RStrip(LStrip(s)))
    case _ => None
  }

  predicate Truth(j: Json) {
    match j
    case JNull => false
    case JBool(b) => b
    case JNum(x) => x != 0.0
    case JStr(s) => s != ""
    case JList(items) => items != []
    case JObj(fields) => fields.Keys != {}
  }

  /** list(j), unless it raises. */
  function ListOf(py: Python, j: Json): Option<seq<Json>> {
    match j
    case JList(items) => Some(items)
    case JStr(s) => Some(seq(|s|, i requires 0 <= i < |s| => JStr([s[i]])))
    case JObj(fields) => Some(Texts(py.keys(fields)))
    case _ => None
  }

  function EntryOf(py: Python, item: Json): Option<Entry> {
    if !item.JObj? then None
    else
      var symbol := NormalizeSymbol(Str(py, Get(item.fields, "symbol", JStr(""))));
      var usage := Int(Get(item.fields, "usage_count", JNum(1.0)));
      if symbol.Err? || usage.None? then None
      else
        Some(Entry(symbol.value, Str(py, Get(item.fields, "last_used", JStr(""))),
                   if usage.value < 1 then 1 else usage.value))
  }

  function EntriesOf(py: Python, items: seq<Json>): seq<Entry> {
    if items == [] then []
    else
      var n := |items| - 1;
      var e := EntryOf(py, items[n]);
      EntriesOf(py, items[..n]) + if e.Some? then [e.value] else []
  }

  function Decoded(py: Python, payload: Json): Result<UISettings, Fault> {
    if !payload.JObj? then Err(Rejected("not an object"))
    else
      var fields := payload.fields;
      var version := Int(Get(fields, "schema_version", JNum(0.0)));
      var source := Upper(Str(py, Get(fields, "watchlist_source", JStr("MANUAL"))));
      var values := ListOf(py, Get(fields, "manual_symbols", JList([])));
      var items := ListOf(py, Get(fields, "symbol_history", JList([])));
      if version != Some(SCHEMA_VERSION) then Err(Rejected("schema"))
      else if source != "MANUAL" && source != "IBKR" then Err(Rejected("source"))
      else if values.None? then Err(Rejected("symbols"))
      else
        match Normalized(values.value)
        case Err(e) => Err(e)
        case Ok(symbols) =>
          if items.None? then Err(Rejected("history"))
          else
            Ok(UISettings(SCHEMA_VERSION, source, symbols, Top(Ranked(EntriesOf(py, items.value))),
                          Str(py, Get(fields, "theme", JStr("openwallstreet-dark"))),
                          Truth(Get(fields, "dense", JBool(false))),
                          Truth(Get(fields, "unicode_symbols", JBool(true)))))
  }

  method Decode(py: Python, payload: Json) returns (r: Result<UISettings, Fault>)
    ensures r == Decoded(py, payload)
  {
    if !payload.JObj? {
      return Err(Rejected("not an object"));
    }
    var fields := payload.fields;
    if Int(Get(fields, "schema_version", JNum(0.0))) != Some(SCHEMA_VERSION) {
      return Err(Rejected("schema"));
    }
    var source := Upper(Str(py, Get(fields, "watchlist_source", JStr("MANUAL"))));
    if source != "MANUAL" && source != "IBKR" {
      return Err(Rejected("source"));
    }
    var values := ListOf(py, Get(fields, "manual_symbols", JList([])));
    if values.None? {
      return Err(Rejected("symbols"));
    }
    var symbols := NormalizeSymbols(values.value);
    if symbols.Err? {
      return Err(symbols.error);
    }
    var items := ListOf(py, Get(fields, "symbol_history", JList([])));
    if items.None? {
      return Err(Rejected("history"));
    }
    var history: seq<Entry> := [];
    for i := 0 to |items.value|
      invariant history == EntriesOf(py, items.value[..i])
    {
      assert items.value[..i + 1][..i] == items.value[..i];
      var e := EntryOf(py, items.value[i]);
      if e.Some? {
        history := history + [e.value];
      }
    }
    assert items.value[..|items.value|] == items.value;
    r := Ok(UISettings(SCHEMA_VERSION, source, symbols.value, Top(Ranked(history)),
                       Str(py, Get(fields, "theme", JStr("openwallstreet-dark"))),
                       Truth(Get(fields, "dense", JBool(false))), Truth(Get(fields, "unicode_symbols", JBool(true)))));
  }

  /** What a file says under a key is what its settings have, and a key it lacks takes the value of fresh settings. */
  lemma KeysAreRead(py: Python, fields: map<string, Json>)
    requires Decoded(py, JObj(fields)).Ok?
    ensures var s := Decoded(py, JObj(fields)).value;
            && "schema_version" in fields
            && (if "theme" !in fields then s.theme == DEFAULTS.theme
                else fields["theme"].JStr? ==> s.theme == fields["theme"].text)
            && (if "dense" !in fields then !s.dense else fields["dense"].JBool? ==> s.dense == fields["dense"].flag)
            && (if "unicode_symbols" !in fields then s.unicodeSymbols
                else fields["unicode_symbols"].JBool? ==> s.unicodeSymbols == fields["unicode_symbols"].flag)
            && (if "watchlist_source" !in fields then s.watchlistSource == "MANUAL"
                else fields["watchlist_source"].JStr? ==> s.watchlistSource == Upper(fields["watchlist_source"].text))
            && (if "manual_symbols" !in fields then s.manualSymbols == []
                else fields["manual_symbols"].JList? ==>
                       Normalized(fields["manual_symbols"].items) == Ok(s.manualSymbols))
            && ("symbol_history" !in fields ==> s.symbolHistory == [])
  {
  }

  /** A file of nothing but its version holds fresh settings. */
  lemma MissingKeysAreDefaults(py: Python)
    ensures Decoded(py, JObj(map["schema_version" := JNum(1.0)])) == Ok(DEFAULTS)
  {
    var fields := map["schema_version" := JNum(1.0)];
    assert Int(Get(fields, "schema_version", JNum(0.0))) == Some(1);
  }

  // ------------------------------------------------------------ encoding settings

  function EncodeEntry(e: Entry): Json {
    JObj(map["symbol" := JStr(e.symbol), "last_used" := JStr(e.lastUsed), "usage_count" := JNum(e.usageCount as real)])
  }

  function EncodeHistory(history: seq<Entry>): seq<Json> {
    seq(|history|, i requires 0 <= i < |history| => EncodeEntry(history[i]))
  }

  function Encode(s: UISettings): Json {
    JObj(map[
      "schema_version" := JNum(s.schemaVersion as real), "watchlist_source" := JStr(s.watchlistSource),
      "manual_symbols" := JList(Texts(s.manualSymbols)), "symbol_history" := JList(EncodeHistory(s.symbolHistory)),
      "theme" := JStr(s.theme), "dense" := JBool(s.dense), "unicode_symbols" := JBool(s.unicodeSymbols)])
  }

  predicate IsEntry(e: Entry) {
    IsSymbol(e.symbol) && e.usageCount >= 1
  }

  predicate IsHistory(h: seq<Entry>) {
    |h| <= MAX_HISTORY && Sorted(h) && forall i :: 0 <= i < |h| ==> IsEntry(h[i])
  }

  predicate WellFormed(s: UISettings) {
    && s.schemaVersion == SCHEMA_VERSION && (s.watchlistSource == "MANUAL" || s.watchlistSource == "IBKR")
    && IsWatchlist(s.manualSymbols) && IsHistory(s.symbolHistory)
  }

  lemma EntryOfEncoded(py: Python, e: Entry)
    ensures EntryOf(py, EncodeEntry(e)) ==
      match NormalizeSymbol(e.symbol)
      case Err(_) => None
      case Ok(symbol) => Some(Entry(symbol, e.lastUsed, if e.usageCount < 1 then 1 else e.usageCount))
  {
    hide NormalizeSymbol;
  }

  lemma {:induction false} EntriesOfEncoded(py: Python, h: seq<Entry>)
    requires forall i :: 0 <= i < |h| ==> IsEntry(h[i])
    ensures EntriesOf(py, EncodeHistory(h)) == h
  {
    hide EntryOf, NormalizeSymbol, IsSymbol;
    if h != [] {
      var n := |h| - 1;
      EntriesOfEncoded(py, h[..n]);
      assert EncodeHistory(h)[..n] == EncodeHistory(h[..n]);
      assert IsEntry(h[n]);
      NormalSymbols(h[n].symbol);
      EntryOfEncoded(py, h[n]);
    }
  }

  lemma {:induction false} EntriesAreEntries(py: Python, items: seq<Json>)
    ensures forall e :: e in EntriesOf(py, items) ==> IsEntry(e)
  {
    hide NormalizeSymbol, Int, Str, IsSymbol;
    if items != [] {
      EntriesAreEntries(py, items[..|items| - 1]);
    }
  }

  lemma RankedEntries(py: Python, items: seq<Json>)
    ensures IsHistory(Top(Ranked(EntriesOf(py, items))))
  {
    hide IsEntry, Ranked, EntriesOf;
    var entries := EntriesOf(py, items);
    EntriesAreEntries(py, items);
    RankedIsSorted(entries);
    var h := Top(Ranked(entries));
    forall i | 0 <= i < |h|
      ensures IsEntry(h[i])
    {
      assert h[i] == Ranked(entries)[i];
      assert Ranked(entries)[i] in multiset(Ranked(entries));
    }
  }

  /** Whatever a file holds, what is decoded from it is well formed. */
  lemma DecodedIsWellFormed(py: Python, payload: Json)
    requires Decoded(py, payload).Ok?
    ensures WellFormed(Decoded(py, payload).value)
  {
    hide Normalized, EntriesOf, Ranked, Top, IsWatchlist, IsHistory, Upper, Int, Str;
    NormalizedIsWatchlist(ListOf(py, Get(payload.fields, "manual_symbols", JList([]))).value);
    RankedEntries(py, ListOf(py, Get(payload.fields, "symbol_history", JList([]))).value);
  }

  /** Decoding what was encoded from any settings: a fault in it is always one that load() catches. */
  lemma DecodedEncoded(py: Python, s: UISettings)
    ensures Decoded(py, Encode(s)) ==
      if s.schemaVersion != SCHEMA_VERSION then Err(Rejected("schema"))
      else if Upper(s.watchlistSource) != "MANUAL" && Upper(s.watchlistSource) != "IBKR" then Err(Rejected("source"))
      else
        match Normalized(Texts(s.manualSymbols))
        case Err(e) => Err(e)
        case Ok(symbols) =>
          Ok(s.(watchlistSource := Upper(s.watchlistSource), manualSymbols := symbols,
                symbolHistory := Top(Ranked(EntriesOf(py, EncodeHistory(s.symbolHistory))))))
  {
    hide Normalized, EntriesOf, Ranked, Top, Upper;
  }

  /** Decoding encoded settings is the identity on exactly the well-formed ones, so on all that were ever decoded. */
  lemma EncodingIsLossless(py: Python, s: UISettings)
    ensures Decoded(py, Encode(s)) == Ok(s) <==> WellFormed(s)
  {
    assert Upper("MANUAL") == "MANUAL" && Upper("IBKR") == "IBKR";
    hide Decoded, Encode, Normalized, EntriesOf, Ranked, IsHistory, IsWatchlist, Upper;
    if WellFormed(s) {
      DecodedEncoded(py, s);
      WatchlistsStay(s.manualSymbols);
      HistoriesStay(py, s.symbolHistory);
    } else if Decoded(py, Encode(s)) == Ok(s) {
      DecodedIsWellFormed(py, Encode(s));
    }
  }

  lemma HistoriesStay(py: Python, h: seq<Entry>)
    requires IsHistory(h)
    ensures Top(Ranked(EntriesOf(py, EncodeHistory(h)))) == h
  {
    EntriesOfEncoded(py, h);
    SortedStays(h);
  }

  // -------------------------------------------------------------- loading and saving

  /** What is at a path; text that is no JSON is Unreadable. */
  datatype File = Missing | Unreadable | Holds(payload: Json)

  datatype Disk = Disk(main: File, backup: File)

  datatype Warning = Quiet | FromBackup | Defaults

  datatype Loaded = Loaded(settings: UISettings, warning: Warning)

  function Read(py: Python, f: File): Result<UISettings, Fault> {
    match f
    case Missing => Err(Rejected("missing"))
    case Unreadable => Err(Rejected("not JSON"))
    case Holds(payload) => Decoded(py, payload)
  }

  /** What load() returns; a fault it does not catch escapes. */
  function LoadOf(py: Python, d: Disk): Result<Loaded, Fault> {
    if d.main.Missing? then Ok(Loaded(DEFAULTS, Quiet))
    else
      match Read(py, d.main)
      case Ok(s) => Ok(Loaded(s, Quiet))
      case Err(NoSuchMethod) => Err(NoSuchMethod)
      case Err(_) =>
        if d.backup.Missing? then Ok(Loaded(DEFAULTS, Defaults))
        else
          match Read(py, d.backup)
          case Ok(s) => Ok(Loaded(s, FromBackup))
          case Err(NoSuchMethod) => Err(NoSuchMethod)
          case Err(_) => Ok(Loaded(DEFAULTS, Defaults))
  }

  /** Where a save stops short, by a crash or by an error of the file system: with the backup half copied (whatever
      that leaves in it), with the new text in a temporary file only, or after the new file has taken its place. */
  datatype Stop = Never | InBackup(torn: File) | BeforeReplace | AfterReplace

  /** What save() writes. */
  function ToSave(s: UISettings): Result<UISettings, Fault> {
    match Normalized(Texts(s.manualSymbols))
    case Err(e) => Err(e)
    case Ok(symbols) => Ok(s.(schemaVersion := SCHEMA_VERSION, manualSymbols := symbols))
  }

  function AfterSave(d: Disk, payload: Json, stop: Stop): Disk {
    match stop
    case InBackup(torn) => if d.main.Missing? then d else d.(backup := torn)
    case BeforeReplace => if d.main.Missing? then d else d.(backup := d.main)
    case _ => Disk(Holds(payload), if d.main.Missing? then d.backup else d.main)
  }

  class UISettingsStore {
    const py: Python
    var main: File
    var backup: File
    var settings: UISettings
    var warning: Warning

    constructor (py: Python, main: File, backup: File)
      ensures this.py == py && this.main == main && this.backup == backup && warning == Quiet && settings == DEFAULTS
    {
      this.py, this.main, this.backup, settings, warning := py, main, backup, DEFAULTS, Quiet;
    }

    function OnDisk(): Disk
      reads this
    {
      Disk(main, backup)
    }

    method ReadFile(f: File) returns (r: Result<UISettings, Fault>)
      ensures r == Read(py, f)
    {
      match f
      case Missing => r := Err(Rejected("missing"));
      case Unreadable => r := Err(Rejected("not JSON"));
      case Holds(payload) => r := Decode(py, payload);
    }

    method Load() returns (r: Result<UISettings, Fault>)
      modifies this`warning
      ensures match LoadOf(py, OnDisk())
              case Ok(l) => r == Ok(l.settings) && warning == if l.warning.Quiet? then old(warning) else l.warning
              case Err(e) => r == Err(e) && warning == old(warning)
    {
      if main.Missing? {
        return Ok(DEFAULTS);
      }
      r := ReadFile(main);
      if r.Ok? || r.error.NoSuchMethod? {
        return;
      }
      if !backup.Missing? {
        r := ReadFile(backup);
        if r.Ok? {
          warning := FromBackup;
          return;
        }
        if r.error.NoSuchMethod? {
          return;
        }
      }
      warning := Defaults;
      return Ok(DEFAULTS);
    }

    method Save(s: UISettings, stop: Stop) returns (r: Result<bool, Fault>)
      modifies this`main, this`backup, this`settings
      ensures match ToSave(s)
              case Err(e) => r == Err(e) && OnDisk() == old(OnDisk()) && settings == old(settings)
              case Ok(t) =>
                && r == Ok(stop.Never?) && OnDisk() == AfterSave(old(OnDisk()), Encode(t), stop)
                && settings == if stop.Never? then t else old(settings)
    {
      var symbols := NormalizeSymbols(Texts(s.manualSymbols));
      if symbols.Err? {
        return Err(symbols.error);
      }
      var t := s.(manualSymbols := symbols.value, schemaVersion := SCHEMA_VERSION);
      var payload := Encode(t);
      if !main.Missing? {
        if stop.InBackup? {
          backup := stop.torn;
          return Ok(false);
        }
        backup := main;
      }
      if stop.InBackup? || stop.BeforeReplace? {
        return Ok(false);
      }
      main := Holds(payload);
      if stop.AfterReplace? {
        return Ok(false);
      }
      settings := t;
      r := Ok(true);
    }

    method UpdateHistory(symbols: seq<string>, now: string) returns (r: Result<bool, Fault>)
      modifies this`settings
      ensures match Normalized(Texts(symbols))
              case Err(e) => r == Err(e) && settings == old(settings)
              case Ok(used) =>
                && r == Ok(true)
                && settings == old(settings).(symbolHistory := UsedHistory(old(settings).symbolHistory, used, now))
    {
      var history := settings.symbolHistory;
      var entries: seq<Entry> := [];
      for i := 0 to |history|
        invariant entries == BySymbol(history[..i])
      {
        assert history[..i + 1][..i] == history[..i];
        entries := Put(entries, history[i]);
      }
      assert history[..|history|] == history;
      var used := NormalizeSymbols(Texts(symbols));
      if used.Err? {
        return Err(used.error);
      }
      for i := 0 to |used.value|
        invariant entries == Used(BySymbol(history), used.value[..i], now)
      {
        assert used.value[..i + 1][..i] == used.value[..i];
        entries := Use(entries, used.value[i], now);
      }
      assert used.value[..|used.value|] == used.value;
      settings := settings.(symbolHistory := Top(Ranked(entries)));
      r := Ok(true);
    }
  }

  // ------------------------------------------------------------- crashes lose nothing

  /** What was saved can be read again, or is refused in a way that load() catches. */
  lemma SavedIsReadable(py: Python, s: UISettings)
    requires ToSave(s).Ok?
    ensures Decoded(py, Encode(ToSave(s).value)) != Err(NoSuchMethod)
    ensures WellFormed(s) ==> Decoded(py, Encode(ToSave(s).value)) == Ok(s)
  {
    hide Decoded, Encode, Normalized, EntriesOf, Ranked, IsHistory, IsWatchlist, Upper;
    var t := ToSave(s).value;
    NormalizedIsWatchlist(Texts(s.manualSymbols));
    WatchlistsStay(t.manualSymbols);
    WatchlistsStay(s.manualSymbols);
    DecodedEncoded(py, t);
    EncodingIsLossless(py, s);
  }

  /** If the file decodes to some settings, then after a save of any others, stopped anywhere, load() returns the old
      ones or the new ones, and never the defaults instead. The new ones are those returned exactly from the moment
      their file is in place, provided they can be read back, as well-formed ones always can. */
  lemma CrashKeepsOldOrNew(py: Python, d: Disk, s: UISettings, stop: Stop)
    requires Read(py, d.main).Ok? && ToSave(s).Ok?
    ensures var saved := Decoded(py, Encode(ToSave(s).value));
            var after := LoadOf(py, AfterSave(d, Encode(ToSave(s).value), stop));
            && after.Ok?
            && after.value.settings ==
                 (if saved.Ok? && (stop.Never? || stop.AfterReplace?) then saved.value else Read(py, d.main).value)
            && (WellFormed(s) ==> saved == Ok(s))
            && !after.value.warning.Defaults?
  {
    hide Decoded, Encode, ToSave;
    SavedIsReadable(py, s);
  }

  /** A finished save is what load() returns from then on, whatever was on the disk before: settings whose symbols a
      save accepts come back with those symbols in normal form and nothing else changed, exactly if they are well formed
      in that form. The file of before, if any, is the backup; a save stopped earlier leaves the file as it was. */
  lemma FinishedSaveIsLoaded(py: Python, d: Disk, s: UISettings, symbols: seq<string>, stop: Stop)
    requires Normalized(Texts(s.manualSymbols)) == Ok(symbols)
    ensures ToSave(s).Ok?
    ensures var t := UISettings(1, s.watchlistSource, symbols, s.symbolHistory, s.theme, s.dense, s.unicodeSymbols);
            var after := AfterSave(d, Encode(ToSave(s).value), stop);
            if stop.Never? || stop.AfterReplace? then
              && (LoadOf(py, after) == Ok(Loaded(t, Quiet)) <==> WellFormed(t))
              && after.backup == if d.main.Missing? then d.backup else d.main
            else
              && after.main == d.main
              && (stop.BeforeReplace? ==> after.backup == if d.main.Missing? then d.backup else d.main)
  {
    var t := UISettings(1, s.watchlistSource, symbols, s.symbolHistory, s.theme, s.dense, s.unicodeSymbols);
    assert ToSave(s) == Ok(t);
    EncodingIsLossless(py, t);
    hide Decoded, Encode, ToSave, WellFormed;
  }

  /** The same settings survive any number of saves that all stop short. */
  lemma {:induction false} StoppedSavesKeepTheFile(py: Python, d: Disk, saves: seq<(UISettings, Stop)>)
    requires Read(py, d.main).Ok?
    requires forall i :: 0 <= i < |saves| ==> saves[i].1.InBackup? || saves[i].1.BeforeReplace?
    ensures LoadOf(py, AfterSaves(d, saves)) == Ok(Loaded(Read(py, d.main).value, Quiet))
  {
    hide Decoded, Encode, ToSave;
    StoppedSavesKeepMain(d, saves);
  }

  /** Saves refused for their symbols leave the disk alone. */
  function AfterSaves(d: Disk, saves: seq<(UISettings, Stop)>): Disk {
    if saves == [] then d
    else
      var before, last := AfterSaves(d, saves[..|saves| - 1]), saves[|saves| - 1];
      match ToSave(last.0)
      case Err(_) => before
      case Ok(t) => AfterSave(before, Encode(t), last.1)
  }

  lemma {:induction false} StoppedSavesKeepMain(d: Disk, saves: seq<(UISettings, Stop)>)
    requires forall i :: 0 <= i < |saves| ==> saves[i].1.InBackup? || saves[i].1.BeforeReplace?
    ensures AfterSaves(d, saves).main == d.main
  {
    if saves != [] {
      StoppedSavesKeepMain(d, saves[..|saves| - 1]);
    }
  }

  /** Wherever a save of these settings stops, load() returns what it would have before, or them. */
  ghost predicate Safe(py: Python, d: Disk, s: UISettings)
    requires LoadOf(py, d).Ok? && ToSave(s).Ok?
  {
    forall stop ::
      var after := LoadOf(py, AfterSave(d, Encode(ToSave(s).value), stop));
      after.Ok? && (after.value.settings == LoadOf(py, d).value.settings || after.value.settings == s)
  }

  /** Settings that were recovered from the backup are not safe: the next save first copies the bad file over it.
      Saving is safe exactly when the file itself can be read. */
  lemma SafeExactlyWhenReadable(py: Python, d: Disk, s: UISettings)
    requires WellFormed(s) && LoadOf(py, d).Ok? && ToSave(s).Ok?
    requires s != DEFAULTS && LoadOf(py, d).value.settings != DEFAULTS
    ensures Safe(py, d, s) <==> Read(py, d.main).Ok?
  {
    hide Decoded, Encode, ToSave, WellFormed;
    if Read(py, d.main).Ok? {
      forall stop
        ensures var after := LoadOf(py, AfterSave(d, Encode(ToSave(s).value), stop));
                after.Ok? && (after.value.settings == LoadOf(py, d).value.settings || after.value.settings == s)
      {
        CrashKeepsOldOrNew(py, d, s, stop);
      }
    } else {
      assert LoadOf(py, AfterSave(d, Encode(ToSave(s).value), BeforeReplace)) == Ok(Loaded(DEFAULTS, Defaults));
    }
  }

  /** An unreadable file with a dense layout in its backup: it is recovered, and lost for the defaults if the next save
      stops before the new file is in place. */
  lemma RecoveredLayoutIsLost(py: Python, s: UISettings)
    requires ToSave(s).Ok?
    ensures var dense := DEFAULTS.(dense := true);
            var d := Disk(Unreadable, Holds(Encode(dense)));
            var after := AfterSave(d, Encode(ToSave(s).value), BeforeReplace);
            && LoadOf(py, d) == Ok(Loaded(dense, FromBackup))
            && after == Disk(Unreadable, Unreadable) && LoadOf(py, after) == Ok(Loaded(DEFAULTS, Defaults))
  {
    EncodingIsLossless(py, DEFAULTS.(dense := true));
    hide Decoded, Encode, ToSave;
  }

  // ------------------------------------------------------- faults that load() does not catch

  /** The first `n` values are texts that each are a symbol once normalised, no two the same. */
  predicate FineUpTo(values: seq<Json>, n: nat)
    requires n <= |values|
  {
    && (forall i :: 0 <= i < n ==> values[i].JStr? && NormalizeSymbol(values[i].text).Ok?)
    && (forall i, j :: 0 <= i < j < n ==> NormalizeSymbol(values[i].text) != NormalizeSymbol(values[j].text))
  }

  lemma {:induction false} NormalizedExactlyIfFine(values: seq<Json>, n: nat)
    requires n <= |values|
    ensures NormalizedUpTo(values, n).Ok? <==> FineUpTo(values, n)
    ensures NormalizedUpTo(values, n).Ok? ==>
              var s := NormalizedUpTo(values, n).value;
              |s| == n && forall i :: 0 <= i < n ==> NormalizeSymbol(values[i].text) == Ok(s[i])
  {
    hide NormalizeSymbol;
    if n > 0 {
      NormalizedExactlyIfFine(values, n - 1);
      if FineUpTo(values, n) {
        var done := NormalizedUpTo(values, n - 1).value;
        assert forall i :: 0 <= i < |done| ==> NormalizeSymbol(values[i].text) == Ok(done[i]);
      }
    }
  }

  /** Some value is no text and all before it are fine. */
  predicate StumblesOn(values: seq<Json>, n: nat) {
    n < |values| && !values[n].JStr? && FineUpTo(values, n)
  }

  lemma {:induction false} EscapesUpTo(values: seq<Json>, n: nat)
    requires n <= |values|
    ensures NormalizedUpTo(values, n) == Err(NoSuchMethod) <==> exists m :: 0 <= m < n && StumblesOn(values, m)
  {
    hide FineUpTo;
    if n > 0 {
      EscapesUpTo(values, n - 1);
      NormalizedExactlyIfFine(values, n - 1);
      if NormalizedUpTo(values, n) == Err(NoSuchMethod) && NormalizedUpTo(values, n - 1).Ok? {
        assert StumblesOn(values, n - 1);
      }
    }
  }

  /** A file whose schema and source are good, and in whose watchlist a value that is no text comes before any other
      fault. */
  predicate Escapes(py: Python, f: File) {
    f.Holds? && f.payload.JObj?
    && var fields := f.payload.fields;
       var source := Upper(Str(py, Get(fields, "watchlist_source", JStr("MANUAL"))));
       var values := ListOf(py, Get(fields, "manual_symbols", JList([])));
       && Int(Get(fields, "schema_version", JNum(0.0))) == Some(SCHEMA_VERSION)
       && (source == "MANUAL" || source == "IBKR")
       && values.Some? && exists n :: 0 <= n < |values.value| && StumblesOn(values.value, n)
  }

  lemma ReadEscapesExactly(py: Python, f: File)
    ensures Read(py, f) == Err(NoSuchMethod) <==> Escapes(py, f)
  {
    if f.Holds? && f.payload.JObj? {
      var values := ListOf(py, Get(f.payload.fields, "manual_symbols", JList([])));
      hide NormalizedUpTo, StumblesOn, EntriesOf, Ranked, Top, Upper, Str, Int, ListOf;
      if values.Some? {
        EscapesUpTo(values.value, |values.value|);
      }
    }
  }

  /** load() raises if and only if the file is such a one, or it is there but refused and the backup is such a one. */
  lemma LoadRaisesExactly(py: Python, d: Disk)
    ensures LoadOf(py, d).Err? <==>
              Escapes(py, d.main) || (!d.main.Missing? && Read(py, d.main).Err? && Escapes(py, d.backup))
  {
    hide Escapes, Decoded;
    ReadEscapesExactly(py, d.main);
    ReadEscapesExactly(py, d.backup);
  }

  /** Such a file: one number for a symbol. No backup is tried. */
  lemma NumbersForSymbolsEscape(py: Python, backup: File)
    ensures var fields := map["schema_version" := JNum(1.0), "manual_symbols" := JList([JNum(1.0)])];
            LoadOf(py, Disk(Holds(JObj(fields)), backup)) == Err(NoSuchMethod)
  {
    assert Upper("MANUAL") == "MANUAL";
    assert NormalizedUpTo([JNum(1.0)], 1) == Err(NoSuchMethod);
  }

  // ------------------------------------------------------------------ symbol history

  /** The entry last given for a symbol. */
  function Lookup(entries: seq<Entry>, symbol: string): Option<Entry> {
    if entries == [] then None
    else if entries[|entries| - 1].symbol == symbol then Some(entries[|entries| - 1])
    else Lookup(entries[..|entries| - 1], symbol)
  }

  /** Replaces the entry of the same symbol where it stands, or adds one at the end. */
  function Put(entries: seq<Entry>, e: Entry): seq<Entry> {
    if entries == [] then [e]
    else if entries[|entries| - 1].symbol == e.symbol then entries[..|entries| - 1] + [e]
    else Put(entries[..|entries| - 1], e) + [entries[|entries| - 1]]
  }

  function BySymbol(history: seq<Entry>): seq<Entry> {
    if history == [] then [] else Put(BySymbol(history[..|history| - 1]), history[|history| - 1])
  }

  function Use(entries: seq<Entry>, symbol: string, now: string): seq<Entry> {
    match Lookup(entries, symbol)
    case None => Put(entries, Entry(symbol, now, 1))
    case Some(e) => Put(entries, Entry(symbol, now, e.usageCount + 1))
  }

  function Used(entries: seq<Entry>, symbols: seq<string>, now: string): seq<Entry> {
    if symbols == [] then entries
    else Use(Used(entries, symbols[..|symbols| - 1], now), symbols[|symbols| - 1], now)
  }

  function UsedHistory(history: seq<Entry>, symbols: seq<string>, now: string): seq<Entry> {
    Top(Ranked(Used(BySymbol(history), symbols, now)))
  }

  lemma {:induction false} PutIsFound(entries: seq<Entry>, e: Entry, symbol: string)
    ensures Lookup(Put(entries, e), symbol) == if symbol == e.symbol then Some(e) else Lookup(entries, symbol)
  {
    var n := |entries| - 1;
    if entries == [] {
      assert [e][..0] == [];
    } else if entries[n].symbol == e.symbol {
      assert (entries[..n] + [e])[..n] == entries[..n];
    } else {
      PutIsFound(entries[..n], e, symbol);
      var front := Put(entries[..n], e);
      assert (front + [entries[n]])[..|front|] == front;
    }
  }

  lemma {:induction false} BySymbolFinds(history: seq<Entry>, symbol: string)
    ensures Lookup(BySymbol(history), symbol) == Lookup(history, symbol)
  {
    if history != [] {
      BySymbolFinds(history[..|history| - 1], symbol);
      PutIsFound(BySymbol(history[..|history| - 1]), history[|history| - 1], symbol);
    }
  }

  /** Each symbol used counts once more and is dated now; the entries of all others are as they were. */
  lemma {:induction false} UseCountsOnce(history: seq<Entry>, symbols: seq<string>, now: string, symbol: string)
    requires Distinct(symbols)
    ensures Lookup(Used(BySymbol(history), symbols, now), symbol) ==
      if symbol !in symbols then Lookup(history, symbol)
      else
        match Lookup(history, symbol)
        case None => Some(Entry(symbol, now, 1))
        case Some(e) => Some(Entry(symbol, now, e.usageCount + 1))
  {
    hide Put, Lookup, BySymbol;
    if symbols == [] {
      BySymbolFinds(history, symbol);
    } else {
      var n := |symbols| - 1;
      assert symbols == symbols[..n] + [symbols[n]];
      assert symbols[n] !in symbols[..n];
      UseCountsOnce(history, symbols[..n], now, symbol);
      UseCountsOnce(history, symbols[..n], now, symbols[n]);
      var entries := Used(BySymbol(history), symbols[..n], now);
      var e := Lookup(entries, symbols[n]);
      PutIsFound(entries, Entry(symbols[n], now, if e.None? then 1 else e.value.usageCount + 1), symbol);
    }
  }

  /** The new history is ranked, and only entries that rank lowest are left out of it, beyond the hundredth. */
  lemma UsedHistoryKeepsTheTop(history: seq<Entry>, symbols: seq<string>, now: string)
    ensures var all, kept := Ranked(Used(BySymbol(history), symbols, now)), UsedHistory(history, symbols, now);
            && Sorted(kept) && kept <= all && multiset(all) == multiset(Used(BySymbol(history), symbols, now))
            && (|all| <= MAX_HISTORY ==> kept == all)
            && (forall i, j :: 0 <= i < |kept| && |kept| <= j < |all| ==> !Outranks(all[j], kept[i]))
  {
    hide Ranked, Used, BySymbol;
    RankedIsSorted(Used(BySymbol(history), symbols, now));
  }
}
