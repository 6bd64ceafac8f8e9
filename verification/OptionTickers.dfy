/** Printing and parsing the vendor's option tickers (trader/sdk.py). */
module OptionTickers {
  import opened Common
  import opened Decimals

  /** A date as strptime gives it. */
  datatype Date = Date(year: nat, month: nat, day: nat) {
    predicate Valid() {
      1 <= year <= 9999 && 1 <= month <= 12 && 1 <= day <= 31
    }
  }

  datatype Contracted = Contracted(symbol: string, expiration: string, right: string, strike: real)

  datatype Failure = CannotParse(ticker: string) | NotANumber(text: string)

  predicate IsAlpha(c: char) {
    IsLower(c) || IsUpper(c)
  }

  predicate AllAlpha(s: string) {
    forall i :: 0 <= i < |s| ==> IsAlpha(s[i])
  }

  /** YYYY-MM-DD. */
  function Iso(d: Date): string {
    Padded(d.year, 4) + "-" + Padded(d.month, 2) + "-" + Padded(d.day, 2)
  }

  function Build(symbol: string, expiration: Date, strike: real, right: string): string {
    "O:" + symbol + Padded(expiration.year % 100, 2) + Padded(expiration.month, 2) + Padded(expiration.day, 2)
    + Upper(right) + Signed(Trunc(strike * 1000.0), 8)
  }

  /** How many letters the text begins with. */
  function Letters(t: string): (n: nat)
    ensures n <= |t| && AllAlpha(t[..n]) && (n < |t| ==> !IsAlpha(t[n]))
  {
    if t == "" || !IsAlpha(t[0]) then 0 else 1 + Letters(t[1..])
  }

  function Unprefixed(ticker: string): string {
    if "O:" <= ticker then ticker[2..] else ticker
  }

  function Contract(symbol: string, rest: string): Result<Contracted, Failure>
    requires |rest| >= 9
  {
    match IntOf(rest[7..])
    case None => Err(NotANumber(rest[7..]))
    case Some(n) =>
      Ok(Contracted(symbol, "20" + rest[..2] + "-" + rest[2..4] + "-" + rest[4..6], rest[6..7], n as real / 1000.0))
  }

  function Parsed(ticker: string): Result<Contracted, Failure> {
    var t := Unprefixed(ticker);
    var n := Letters(t);
    if |t[n..]| < 9 then Err(CannotParse(ticker)) else Contract(t[..n], t[n..])
  }

  method Parse(ticker: string) returns (r: Result<Contracted, Failure>)
    ensures r == Parsed(ticker)
  {
    var t := ticker;
    if "O:" <= t {
      t := t[2..];
    }
    var i := 0;
    while i < |t| && IsAlpha(t[i])
      invariant i <= |t| && AllAlpha(t[..i])
    {
      i := i + 1;
    }
    LettersAre(t, i);
    var symbol, rest := t[..i], t[i..];
    if |rest| < 9 {
      return Err(CannotParse(ticker));
    }
    r := Contract(symbol, rest);
  }

  lemma {:induction false} LettersAre(t: string, n: nat)
    requires n <= |t| && AllAlpha(t[..n]) && (n < |t| ==> !IsAlpha(t[n]))
    ensures Letters(t) == n
  {
    if n > 0 {
      assert t[1..][..n - 1] == t[..n][1..];
      LettersAre(t[1..], n - 1);
    }
  }

  // ------------------------------------------------------------------ round trip

  /** The symbol found is always letters only, and the right always one character. */
  lemma ParsedShape(ticker: string)
    requires Parsed(ticker).Ok?
    ensures AllAlpha(Parsed(ticker).value.symbol) && |Parsed(ticker).value.right| == 1
  {
  }

  lemma Fields(yy: string, mm: string, dd: string, right: string, number: string)
    requires |yy| == |mm| == |dd| == 2 && |right| == 1
    ensures var rest := yy + mm + dd + right + number;
            && rest[..2] == yy && rest[2..4] == mm && rest[4..6] == dd && rest[6..7] == right && rest[7..] == number
  {
  }

  lemma ParsedText(symbol: string, rest: string)
    requires AllAlpha(symbol) && |rest| >= 9 && IsDigit(rest[0])
    ensures Parsed("O:" + symbol + rest) == Contract(symbol, rest)
  {
    hide Contract, Letters;
    var t := symbol + rest;
    assert "O:" + symbol + rest == "O:" + t;
    assert Unprefixed("O:" + symbol + rest) == t;
    assert t[..|symbol|] == symbol && t[|symbol|..] == rest && t[|symbol|] == rest[0];
    LettersAre(t, |symbol|);
  }

  /** What parsing makes of a built ticker whose symbol is letters and whose right is one character. */
  lemma ParsedBuilt(symbol: string, d: Date, strike: real, right: string)
    requires AllAlpha(symbol) && d.Valid() && |right| == 1
    ensures Parsed(Build(symbol, d, strike, right)) ==
      Ok(Contracted(symbol, "20" + Padded(d.year % 100, 2) + "-" + Padded(d.month, 2) + "-" + Padded(d.day, 2),
                 Upper(right), Trunc(strike * 1000.0) as real / 1000.0))
  {
    hide Padded, Signed, IntOf, Trunc, Upper, Parsed;
    var yy, mm, dd := Padded(d.year % 100, 2), Padded(d.month, 2), Padded(d.day, 2);
    var number := Signed(Trunc(strike * 1000.0), 8);
    var rest := yy + mm + dd + Upper(right) + number;
    TwoDigits(d.year % 100);
    TwoDigits(d.month);
    TwoDigits(d.day);
    IntOfSigned(Trunc(strike * 1000.0), 8);
    Fields(yy, mm, dd, Upper(right), number);
    assert IsDigit(yy[0]);
    assert Build(symbol, d, strike, right) == "O:" + symbol + rest;
    ParsedText(symbol, rest);
  }

  lemma CenturyIsTwenty(year: nat)
    requires year <= 9999
    ensures "20" + Padded(year % 100, 2) == Padded(year, 4) <==> 2000 <= year < 2100
  {
    hide Padded, NatOf;
    NatOfPadded(year % 100, 2);
    NatOfPadded(year, 4);
    TwoDigits(year % 100);
    Prefixed(Padded(year % 100, 2));
    if 2000 <= year < 2100 {
      TwentyFirst(year - 2000);
    }
  }

  lemma TwentyFirst(r: nat)
    requires r < 100
    ensures "20" + Padded(r, 2) == Padded(2000 + r, 4)
  {
    var q := r / 10;
    assert (2000 + r) / 10 == 200 + q && (2000 + r) % 10 == r % 10 && (200 + q) / 10 == 20 && (200 + q) % 10 == q;
    assert Digits(20) == "20";
    assert Digits(200 + q) == "20" + [Digit(q)];
    assert Digits(2000 + r) == "20" + [Digit(q)] + [Digit(r % 10)];
    if r < 10 {
      assert Zeros(1) == "0" && Digits(r) == [Digit(r)];
    } else {
      assert Digits(r) == Digits(q) + [Digit(r % 10)];
    }
  }

  lemma Prefixed(yy: string)
    requires |yy| == 2 && AllDigits(yy)
    ensures NatOf("20" + yy) == 2000 + NatOf(yy)
  {
    hide NatOf;
    NatOfAppend("", '2');
    NatOfAppend("2", '0');
    NatOfAppend("20", yy[0]);
    NatOfAppend("20" + [yy[0]], yy[1]);
    NatOfAppend("", yy[0]);
    NatOfAppend([yy[0]], yy[1]);
    assert "" + "2" == "2" && "2" + "0" == "20" && "" + [yy[0]] == [yy[0]] && [yy[0]] + [yy[1]] == yy;
    assert "20" + [yy[0]] + [yy[1]] == "20" + yy;
  }

  lemma ExpirationIs(d: Date)
    requires d.Valid()
    ensures "20" + Padded(d.year % 100, 2) + "-" + Padded(d.month, 2) + "-" + Padded(d.day, 2) == Iso(d)
      <==> 2000 <= d.year < 2100
  {
    hide Padded;
    var century, year := "20" + Padded(d.year % 100, 2), Padded(d.year, 4);
    var tail := "-" + Padded(d.month, 2) + "-" + Padded(d.day, 2);
    CenturyIsTwenty(d.year);
    TwoDigits(d.year % 100);
    FourDigits(d.year);
    assert Iso(d) == year + tail;
    assert "20" + Padded(d.year % 100, 2) + "-" + Padded(d.month, 2) + "-" + Padded(d.day, 2) == century + tail;
    assert (century + tail)[..4] == century && (year + tail)[..4] == year;
  }

  predicate IsWhole(x: real) {
    x == x.Floor as real
  }

  lemma TruncIsExact(strike: real)
    ensures Trunc(strike * 1000.0) as real / 1000.0 == strike <==> IsWhole(strike * 1000.0)
  {
    var x := strike * 1000.0;
    if IsWhole(x) {
      assert (-x).Floor == -x.Floor;
    }
  }

  /** Parsing a built ticker gives back what it was built from exactly when the symbol is letters only, the year is in
      2000-2099, the right is one character in upper case, and the strike is a whole number of thousandths. */
  lemma RoundTrip(symbol: string, d: Date, strike: real, right: string)
    requires d.Valid()
    ensures Parsed(Build(symbol, d, strike, right)) == Ok(Contracted(symbol, Iso(d), right, strike)) <==>
      && AllAlpha(symbol) && 2000 <= d.year < 2100
      && |right| == 1 && Upper(right) == right && IsWhole(strike * 1000.0)
  {
    hide Parsed, Build, Iso, Padded, Trunc, IsWhole, Upper;
    var r := Parsed(Build(symbol, d, strike, right));
    if r.Ok? {
      ParsedShape(Build(symbol, d, strike, right));
    }
    if AllAlpha(symbol) && |right| == 1 {
      ParsedBuilt(symbol, d, strike, right);
      ExpirationIs(d);
      TruncIsExact(strike);
    }
  }

  lemma {:induction false} Numeral(text: string, c: char, n: nat, d: nat)
    requires n > 0 && Digits(n) == text && d < 10 && c == Digit(d)
    ensures Digits(10 * n + d) == text + [c]
  {
    assert (10 * n + d) / 10 == n && (10 * n + d) % 10 == d;
  }

  lemma {:induction false} Numerals()
    ensures Digits(3) == "3" && Digits(20) == "20" && Digits(26) == "26" && Digits(2026) == "2026"
    ensures Digits(250000) == "250000"
  {
    assert Digits(2) == "2" && Digits(3) == "3";
    hide Digits;
    Numeral("2", '6', 2, 6);
    Numeral("2", '0', 2, 0);
    Numeral("20", '2', 20, 2);
    Numeral("202", '6', 202, 6);
    Numeral("2", '5', 2, 5);
    Numeral("25", '0', 25, 0);
    Numeral("250", '0', 250, 0);
    Numeral("2500", '0', 2500, 0);
    Numeral("25000", '0', 25000, 0);
  }

  lemma {:induction false} PaddedNumerals()
    ensures Padded(26, 2) == "26" && Padded(3, 2) == "03" && Padded(20, 2) == "20" && Padded(2026, 4) == "2026"
    ensures Padded(250000, 8) == "00250000"
  {
    Numerals();
    assert Zeros(0) == "" && Zeros(1) == "0" && Zeros(2) == "00";
    hide Digits, Zeros;
  }

  /** The form of such a ticker: year, month and day in two digits each, the right, and thousandths in eight digits. */
  lemma TickerIs()
    ensures Build("AAPL", Date(2026, 3, 20), 250.0, "c") == "O:AAPL260320C00250000"
    ensures Parsed("O:AAPL260320C00250000") == Ok(Contracted("AAPL", "2026-03-20", "C", 250.0))
  {
    hide Padded, Trunc, Upper, Parsed, IsWhole, Build, Iso;
    BuildIs("C");
    BuildIs("c");
    RoundTrip("AAPL", Date(2026, 3, 20), 250.0, "C");
  }

  lemma BuildIs(right: string)
    requires right == "C" || right == "c"
    ensures Build("AAPL", Date(2026, 3, 20), 250.0, right) == "O:AAPL260320C00250000"
    ensures Iso(Date(2026, 3, 20)) == "2026-03-20" && Upper("C") == "C" && IsWhole(250.0 * 1000.0)
  {
    PaddedNumerals();
    assert Upper(right) == "C" && Trunc(250.0 * 1000.0) == 250000;
    hide Padded, Trunc, Upper;
    assert 2026 % 100 == 26 && Signed(250000, 8) == Padded(250000, 8);
    hide Signed;
    Pieces();
  }

  lemma Pieces()
    ensures "O:" + "AAPL" + "26" + "03" + "20" + "C" + "00250000" == "O:AAPL260320C00250000"
    ensures "2026" + "-" + "03" + "-" + "20" == "2026-03-20"
  {
    assert "O:" + "AAPL" + "26" == "O:AAPL26";
    assert "O:AAPL26" + "03" + "20" + "C" == "O:AAPL260320C";
    assert "2026" + "-" + "03" == "2026-03";
  }

  /** So no two such contracts share a ticker. */
  lemma {:induction false} TickersAreDistinct(
    s: string, d: Date, k: real, r: string, s': string, d': Date, k': real, r': string)
    requires AllAlpha(s) && AllAlpha(s') && d.Valid() && d'.Valid() && 2000 <= d.year < 2100 && 2000 <= d'.year < 2100
    requires |r| == 1 && |r'| == 1 && IsWhole(k * 1000.0) && IsWhole(k' * 1000.0)
    requires Build(s, d, k, r) == Build(s', d', k', r')
    ensures s == s' && Upper(r) == Upper(r') && k == k' && Iso(d) == Iso(d')
  {
    hide Parsed, Build, Iso, Padded, Trunc, IsWhole, Upper;
    ParsedBuilt(s, d, k, r);
    ParsedBuilt(s', d', k', r');
    ExpirationIs(d);
    ExpirationIs(d');
    TruncIsExact(k);
    TruncIsExact(k');
  }
}
