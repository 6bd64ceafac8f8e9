/** Whole numbers written in decimal. */
module Decimals {
  import opened Common

  predicate IsDigit(c: char) {
    '0' <= c <= '9'
  }

  predicate AllDigits(s: string) {
    forall i :: 0 <= i < |s| ==> IsDigit(s[i])
  }

  function Digit(d: nat): (c: char)
    requires d < 10
    ensures IsDigit(c) && c as int - '0' as int == d
  {
    ('0' as int + d) as char
  }

  function Digits(n: nat): (r: string)
    ensures r != "" && AllDigits(r)
  {
    if n < 10 then [Digit(n)] else Digits(n / 10) + [Digit(n % 10)]
  }

  function Zeros(k: nat): (r: string)
    ensures |r| == k && AllDigits(r)
  {
    if k == 0 then "" else Zeros(k - 1) + "0"
  }

  /** At least `width` digits. */
  function Padded(n: nat, width: nat): (r: string)
    ensures AllDigits(r) && |r| >= width
  {
    if |Digits(n)| < width then Zeros(width - |Digits(n)|) + Digits(n) else Digits(n)
  }

  /** As Python's format "0{width}d" prints it: the sign counts. */
  function Signed(n: int, width: nat): (r: string)
    requires width > 0
    ensures |r| >= width
  {
    if n >= 0 then Padded(n, width) else "-" + Padded(-n, width - 1)
  }

  function NatOf(s: string): nat
    requires AllDigits(s)
  {
    if s == "" then 0 else NatOf(s[..|s| - 1]) * 10 + (s[|s| - 1] as int - '0' as int)
  }

  /** An optional sign and digits. */
  function IntOf(s: string): Option<int> {
    if s == "" then None
    else if s[0] == '-' || s[0] == '+' then
      if |s| > 1 && AllDigits(s[1..]) then
        var n: int := NatOf(s[1..]);
        Some(if s[0] == '-' then -n else n)
      else None
    else if AllDigits(s) then Some(NatOf(s))
    else None
  }

  /** Towards zero. */
  function Trunc(x: real): int {
    if x >= 0.0 then x.Floor else -(-x).Floor
  }

  lemma {:induction false} NatOfDigits(n: nat)
    ensures NatOf(Digits(n)) == n
  {
    if n >= 10 {
      NatOfDigits(n / 10);
      var s := Digits(n);
      assert s[..|s| - 1] == Digits(n / 10);
    }
  }

  lemma {:induction false} NatOfZeros(k: nat, s: string)
    requires AllDigits(s)
    ensures NatOf(Zeros(k) + s) == NatOf(s)
  {
    var t := Zeros(k) + s;
    if s != "" {
      assert t[..|t| - 1] == Zeros(k) + s[..|s| - 1];
      NatOfZeros(k, s[..|s| - 1]);
    } else if k > 0 {
      assert t[..|t| - 1] == Zeros(k - 1) + "";
      NatOfZeros(k - 1, "");
    }
  }

  lemma NatOfAppend(s: string, c: char)
    requires AllDigits(s) && IsDigit(c)
    ensures NatOf(s + [c]) == NatOf(s) * 10 + (c as int - '0' as int) && NatOf("") == 0
  {
    assert (s + [c])[..|s|] == s;
  }

  lemma NatOfPadded(n: nat, width: nat)
    ensures NatOf(Padded(n, width)) == n
  {
    hide NatOf, Digits, Zeros;
    NatOfDigits(n);
    if |Digits(n)| < width {
      NatOfZeros(width - |Digits(n)|, Digits(n));
    }
  }

  /** Reading a printed number gives it back. */
  lemma IntOfSigned(n: int, width: nat)
    requires width > 1
    ensures IntOf(Signed(n, width)) == Some(n)
  {
    if n >= 0 {
      NatOfPadded(n, width);
    } else {
      NatOfPadded(-n, width - 1);
      assert Signed(n, width)[1..] == Padded(-n, width - 1);
    }
  }

  lemma TwoDigits(n: nat)
    requires n < 100
    ensures |Padded(n, 2)| == 2
  {
    assert n >= 10 ==> |Digits(n)| == |Digits(n / 10)| + 1;
  }

  lemma FourDigits(n: nat)
    requires n < 10000
    ensures |Padded(n, 4)| == 4
  {
    if n >= 10 {
      assert |Digits(n)| == |Digits(n / 10)| + 1;
      if n / 10 >= 10 {
        assert |Digits(n / 10)| == |Digits(n / 10 / 10)| + 1;
      }
    }
  }
}
