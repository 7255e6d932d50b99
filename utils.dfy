/**
 * The display and validation helpers: base-unit balances rendered as decimals, shortened
 * addresses and hashes, the address syntax check, and the relative-time label.
 */
module Utils {
  import opened Wrappers
  import opened JsText

  // ---------------------------------------------------------------------------------
  // Decimal arithmetic on digit strings

  function Pow10(k: nat): (p: nat)
    ensures p >= 1
  {
    if k == 0 then 1 else 10 * Pow10(k - 1)
  }

  /** The `k` low-order decimal digits of `n`, zero-padded to exactly `k` characters. */
  function LowDigits(n: nat, k: nat): (s: string)
    ensures |s| == k && AllDigits(s)
  {
    if k == 0 then [] else LowDigits(n / 10, k - 1) + [DigitChar(n % 10)]
  }

  /** The whole units in `balance` base units at `decimals` places, one decimal digit at a time. */
  function WholeUnits(balance: nat, decimals: nat): nat
  {
    if decimals == 0 then balance else WholeUnits(balance / 10, decimals - 1)
  }

  /** The base units left over below one whole unit. */
  function RemainderUnits(balance: nat, decimals: nat): nat
  {
    if decimals == 0 then 0 else RemainderUnits(balance / 10, decimals - 1) * 10 + balance % 10
  }

  lemma MulTen(a: int, p: int)
    ensures a * (10 * p) == (a * p) * 10
  {
  }

  lemma MulAtLeast(a: int, d: int)
    requires a >= 1 && d > 0
    ensures a * d >= d
  {
  }

  /** Whole units and remainder recompose the balance, the remainder below one whole unit. */
  lemma {:induction false} UnitsSplit(balance: nat, decimals: nat)
    ensures WholeUnits(balance, decimals) * Pow10(decimals) + RemainderUnits(balance, decimals) == balance
    ensures RemainderUnits(balance, decimals) < Pow10(decimals)
  {
    if decimals > 0 {
      UnitsSplit(balance / 10, decimals - 1);
      var w, r, p := WholeUnits(balance / 10, decimals - 1), RemainderUnits(balance / 10, decimals - 1), Pow10(decimals - 1);
      assert w * p + r == balance / 10 && r < p;
      assert WholeUnits(balance, decimals) == w;
      assert RemainderUnits(balance, decimals) == r * 10 + balance % 10;
      assert Pow10(decimals) == 10 * p;
      assert w * Pow10(decimals) == (w * p) * 10 by { MulTen(w, p); }
      assert balance == (balance / 10) * 10 + balance % 10;
    }
  }

  lemma DivModUnique(n: int, d: int, q: int, r: int)
    requires d > 0 && 0 <= r < d && n == q * d + r
    ensures n / d == q && n % d == r
  {
    var q', r' := n / d, n % d;
    assert n == q' * d + r';
    if q > q' {
      assert (q - q') * d >= d by { MulAtLeast(q - q', d); }
      assert false;
    } else if q < q' {
      assert (q' - q) * d >= d by { MulAtLeast(q' - q, d); }
      assert false;
    }
  }

  /** They are the quotient and remainder by 10^decimals. */
  lemma UnitsAreDivMod(balance: nat, decimals: nat)
    ensures WholeUnits(balance, decimals) == balance / Pow10(decimals)
    ensures RemainderUnits(balance, decimals) == balance % Pow10(decimals)
  {
    UnitsSplit(balance, decimals);
    DivModUnique(balance, Pow10(decimals), WholeUnits(balance, decimals), RemainderUnits(balance, decimals));
  }

  lemma {:induction false} ValueOfLowDigits(n: nat, k: nat)
    ensures Value(LowDigits(n, k)) == RemainderUnits(n, k)
  {
    if k > 0 {
      var s := LowDigits(n, k);
      assert s[..k - 1] == LowDigits(n / 10, k - 1);
      ValueOfLowDigits(n / 10, k - 1);
    }
  }

  lemma DigitsAppend(a: string, b: string)
    requires AllDigits(a) && AllDigits(b)
    ensures AllDigits(a + b)
  {
    var ab := a + b;
    forall i | 0 <= i < |ab| ensures IsDigit(ab[i]) {
      if i < |a| { assert ab[i] == a[i]; } else { assert ab[i] == b[i - |a|]; }
    }
  }

  lemma {:induction false} ValueAppend(a: string, b: string)
    requires AllDigits(a) && AllDigits(b)
    ensures AllDigits(a + b)
    ensures Value(a + b) == Value(a) * Pow10(|b|) + Value(b)
    decreases |b|
  {
    var ab := a + b;
    DigitsAppend(a, b);
    if b == [] {
      assert ab == a;
    } else {
      var b' := b[..|b| - 1];
      assert ab[..|ab| - 1] == a + b';
      assert ab[|ab| - 1] == b[|b| - 1];
      ValueAppend(a, b');
      var x, p, y, d := Value(a), Pow10(|b'|), Value(b'), DigitValue(b[|b| - 1]);
      assert Value(ab) == Value(a + b') * 10 + d;
      assert Value(a + b') == x * p + y;
      assert Value(b) == y * 10 + d;
      assert Pow10(|b|) == p * 10;
      MulAssoc(x, p, y);
    }
  }

  lemma MulAssoc(x: int, p: int, y: int)
    ensures (x * p + y) * 10 == x * (p * 10) + y * 10
  {
  }

  lemma {:induction false} ValueOfZeros(k: nat)
    ensures AllDigits(Repeat('0', k)) && Value(Repeat('0', k)) == 0
  {
    if k > 0 {
      assert Repeat('0', k)[..k - 1] == Repeat('0', k - 1);
      ValueOfZeros(k - 1);
    }
  }

  lemma {:induction false} WholeOfZero(k: nat)
    ensures WholeUnits(0, k) == 0
  {
    if k > 0 {
      WholeOfZero(k - 1);
    }
  }

  /** The rendering of `n` splits into the rendering of its whole units and the `k` low-order digits. */
  lemma {:induction false} SplitNatToString(n: nat, k: nat)
    requires |NatToString(n)| > k
    ensures var s := NatToString(n);
      s[..|s| - k] == NatToString(WholeUnits(n, k)) && s[|s| - k..] == LowDigits(n, k)
    decreases k
  {
    var s := NatToString(n);
    if k > 0 {
      var t := NatToString(n / 10);
      assert s == t + [DigitChar(n % 10)];
      SplitNatToString(n / 10, k - 1);
      assert s[..|s| - k] == t[..|t| - (k - 1)];
      assert s[|s| - k..] == t[|t| - (k - 1)..] + [DigitChar(n % 10)];
    }
  }

  /** A rendering no longer than `k` digits, zero-padded to `k`, is `n`'s `k` low-order digits. */
  lemma {:induction false} PaddedNatToString(n: nat, k: nat)
    requires |NatToString(n)| <= k
    ensures LowDigits(n, k) == Repeat('0', k - |NatToString(n)|) + NatToString(n)
    ensures WholeUnits(n, k) == 0
    decreases n
  {
    var s := NatToString(n);
    if n < 10 {
      LowZeros(k - 1);
      WholeOfZero(k - 1);
      assert LowDigits(n, k) == LowDigits(0, k - 1) + [DigitChar(n)];
    } else {
      var t := NatToString(n / 10);
      assert s == t + [DigitChar(n % 10)];
      PaddedNatToString(n / 10, k - 1);
      assert LowDigits(n, k) == (Repeat('0', k - 1 - |t|) + t) + [DigitChar(n % 10)];
    }
  }

  lemma {:induction false} LowZeros(k: nat)
    ensures LowDigits(0, k) == Repeat('0', k)
  {
    if k > 0 {
      LowZeros(k - 1);
    }
  }

  /** Stripping trailing zeros keeps a prefix, ending in a non-zero digit, followed only by zeros. */
  lemma {:induction false} TrimTrailingZerosShape(s: string)
    ensures var t := TrimTrailingZeros(s);
      |t| <= |s| && t == s[..|t|] && (t == [] || t[|t| - 1] != '0')
      && forall i :: |t| <= i < |s| ==> s[i] == '0'
    decreases |s|
  {
    if |s| > 0 && s[|s| - 1] == '0' {
      TrimTrailingZerosShape(s[..|s| - 1]);
    }
  }

  /** Stripping trailing zeros divides the value by the matching power of ten. */
  lemma {:induction false} TrimTrailingZerosValue(s: string)
    requires AllDigits(s)
    ensures var t := TrimTrailingZeros(s);
      && AllDigits(t)
      && Value(t) * Pow10(|s| - |t|) == Value(s)
      && (t == [] <==> Value(s) == 0)
    decreases |s|
  {
    var t := TrimTrailingZeros(s);
    TrimTrailingZerosShape(s);
    assert AllDigits(t) by {
      forall i | 0 <= i < |t| ensures IsDigit(t[i]) { assert t[i] == s[i]; }
    }
    if |s| > 0 && s[|s| - 1] == '0' {
      var s' := s[..|s| - 1];
      assert TrimTrailingZeros(s') == t;
      TrimTrailingZerosValue(s');
      var a, p := Value(t), Pow10(|s'| - |t|);
      assert Value(s) == Value(s') * 10;
      assert Value(s') == a * p;
      assert Pow10(|s| - |t|) == 10 * p;
      MulTen(a, p);
    }
    if t != [] {
      var a, p := Value(t), Pow10(|s| - |t|);
      assert a >= 1 by {
        assert a == Value(t[..|t| - 1]) * 10 + DigitValue(t[|t| - 1]);
      }
      MulAtLeast(a, p);
    }
  }

  // ---------------------------------------------------------------------------------
  // formatBalance

  /**
   * `formatBalance` exactly as written: for `decimals == 0` the integer part is
   * `str.slice(0, -0)`, that is `str.slice(0, 0) == ""`, and the fraction is the whole
   * rendering, so a non-zero balance comes out as "." followed by its digits.
   */
  function FormatBalanceAsWritten(balance: nat, decimals: nat): (r: string)
  {
    if balance == 0 then "0"
    else
      var str := NatToString(balance);
      if |str| <= decimals then
        "0." + TrimTrailingZeros(PadStart(str, decimals, '0'))
      else
        var whole := Slice(str, 0, -(decimals as int));
        var fraction := TrimTrailingZeros(SliceFrom(str, -(decimals as int)));
        if fraction != "" then whole + "." + fraction else whole
  }

  /** With no decimals, 120 base units render as ".12": the integer part is lost. */
  lemma FormatBalanceZeroDecimalsLosesWhole()
    ensures FormatBalanceAsWritten(120, 0) == ".12"
    ensures ParseUnits(FormatBalanceAsWritten(120, 0), 0) == None
  {
    var s := NatToString(120);
    assert NatToString(12) == NatToString(1) + ['2'];
    assert s == NatToString(12) + ['0'];
    assert s == "120";
    assert TrimTrailingZeros("120") == TrimTrailingZeros("12") == "12";
    assert IndexOf(".12", '.') == Some(0);
  }

  /** `formatBalance` with the zero-decimals case corrected: the rendering is the integer itself. */
  function FormatBalance(balance: nat, decimals: nat): (r: string)
  {
    if decimals == 0 && balance != 0 then NatToString(balance)
    else FormatBalanceAsWritten(balance, decimals)
  }

  /** With at least one decimal the source and the corrected definition agree. */
  lemma FormatBalanceAgrees(balance: nat, decimals: nat)
    requires decimals >= 1 || balance == 0
    ensures FormatBalance(balance, decimals) == FormatBalanceAsWritten(balance, decimals)
  {
  }

  /**
   * The integer and fraction strings `formatBalance` joins for a positive balance with at
   * least one decimal, following its two branches (short renderings are zero-padded).
   */
  function BalanceParts(balance: nat, decimals: nat): (parts: (string, string))
    requires balance > 0 && decimals >= 1
  {
    var str := NatToString(balance);
    if |str| <= decimals then ("0", TrimTrailingZeros(PadStart(str, decimals, '0')))
    else (str[..|str| - decimals], TrimTrailingZeros(str[|str| - decimals..]))
  }

  /** The parts are the quotient's rendering and the stripped `decimals` low-order digits. */
  lemma BalancePartsAre(balance: nat, decimals: nat)
    requires balance > 0 && decimals >= 1
    ensures BalanceParts(balance, decimals).0 == NatToString(WholeUnits(balance, decimals))
    ensures BalanceParts(balance, decimals).1 == TrimTrailingZeros(LowDigits(balance, decimals))
  {
    var str := NatToString(balance);
    if |str| <= decimals {
      PaddedNatToString(balance, decimals);
      assert PadStart(str, decimals, '0') == LowDigits(balance, decimals);
      assert NatToString(0) == "0";
    } else {
      SplitNatToString(balance, decimals);
    }
  }

  /** The integer part denotes the whole units. */
  lemma WholeValue(balance: nat, decimals: nat)
    requires balance > 0 && decimals >= 1
    ensures AllDigits(BalanceParts(balance, decimals).0)
    ensures Value(BalanceParts(balance, decimals).0) == WholeUnits(balance, decimals)
  {
    BalancePartsAre(balance, decimals);
    ValueOfNatToString(WholeUnits(balance, decimals));
  }

  /** The fraction is the remainder with its trailing zeros (and so its scale) removed. */
  lemma FractionValue(balance: nat, decimals: nat)
    requires balance > 0 && decimals >= 1
    ensures var fraction := BalanceParts(balance, decimals).1;
      && AllDigits(fraction) && |fraction| <= decimals
      && (fraction == "" || fraction[|fraction| - 1] != '0')
      && (fraction == "" <==> RemainderUnits(balance, decimals) == 0)
      && Value(fraction) * Pow10(decimals - |fraction|) == RemainderUnits(balance, decimals)
  {
    var low := LowDigits(balance, decimals);
    var fraction := TrimTrailingZeros(low);
    assert BalanceParts(balance, decimals).1 == fraction by { BalancePartsAre(balance, decimals); }
    assert Value(low) == RemainderUnits(balance, decimals) by { ValueOfLowDigits(balance, decimals); }
    assert fraction == "" || fraction[|fraction| - 1] != '0' by { TrimTrailingZerosShape(low); }
    TrimTrailingZerosValue(low);
  }

  /** What the two parts are, and that together they denote the balance. */
  lemma BalancePartsMeaning(balance: nat, decimals: nat)
    requires balance > 0 && decimals >= 1
    ensures var whole, fraction := BalanceParts(balance, decimals).0, BalanceParts(balance, decimals).1;
      && AllDigits(whole) && AllDigits(fraction) && |fraction| <= decimals
      && (fraction == "" || fraction[|fraction| - 1] != '0')
      && (fraction == "" <==> RemainderUnits(balance, decimals) == 0)
      && Value(whole) * Pow10(decimals) + Value(fraction) * Pow10(decimals - |fraction|) == balance
  {
    UnitsSplit(balance, decimals);
    WholeValue(balance, decimals);
    FractionValue(balance, decimals);
  }

  /** `formatBalance` joins the parts with ".", leaving the "." out when the fraction is empty. */
  lemma FormatBalanceJoinsParts(balance: nat, decimals: nat)
    requires balance > 0 && decimals >= 1
    ensures var (whole, fraction) := BalanceParts(balance, decimals);
      FormatBalance(balance, decimals) == whole + (if fraction == "" then "" else "." + fraction)
  {
    var str := NatToString(balance);
    var (whole, fraction) := BalanceParts(balance, decimals);
    if |str| > decimals {
      assert Slice(str, 0, -(decimals as int)) == whole;
      assert TrimTrailingZeros(SliceFrom(str, -(decimals as int))) == fraction;
      assert FormatBalance(balance, decimals) == if fraction != "" then whole + "." + fraction else whole;
    } else {
      BalancePartsMeaning(balance, decimals);
      PaddedNatToString(balance, decimals);
      UnitsSplit(balance, decimals);
      assert RemainderUnits(balance, decimals) == balance;
      assert fraction != "";
      assert FormatBalance(balance, decimals) == "0." + fraction;
    }
  }

  /**
   * The rendering of a balance: "0" for zero; otherwise the whole units, `balance / 10^d`
   * ("0" below one whole unit), and, only when the remainder `balance % 10^d` is not zero,
   * a "." followed by the d-digit zero-padded remainder with its trailing zeros stripped
   * (`UnitsAreDivMod` relates the two unit functions to `/` and `%`).
   */
  lemma FormatBalanceParts(balance: nat, decimals: nat)
    ensures balance == 0 ==> FormatBalance(balance, decimals) == "0"
    ensures balance > 0 && decimals >= 1 ==>
      FormatBalance(balance, decimals) ==
        NatToString(WholeUnits(balance, decimals))
        + (if RemainderUnits(balance, decimals) == 0 then ""
           else "." + TrimTrailingZeros(LowDigits(balance, decimals)))
    ensures balance > 0 && decimals == 0 ==> FormatBalance(balance, decimals) == NatToString(balance)
  {
    if balance > 0 && decimals >= 1 {
      var q, m := WholeUnits(balance, decimals), RemainderUnits(balance, decimals);
      var whole, fraction := BalanceParts(balance, decimals).0, BalanceParts(balance, decimals).1;
      BalancePartsAre(balance, decimals);
      BalancePartsMeaning(balance, decimals);
      FormatBalanceJoinsParts(balance, decimals);
      assert whole == NatToString(q);
      assert fraction == "" <==> m == 0;
      assert FormatBalance(balance, decimals) == whole + (if fraction == "" then "" else "." + fraction);
    }
  }

  // ---------------------------------------------------------------------------------
  // Reading a rendering back

  /** The position of the first `c` in `s`. */
  function IndexOf(s: string, c: char): (r: Option<nat>)
    ensures r.Some? ==> r.value < |s| && s[r.value] == c && c !in s[..r.value]
    ensures r.None? ==> c !in s
  {
    if s == [] then None
    else if s[0] == c then Some(0)
    else match IndexOf(s[1..], c)
      case None => None
      case Some(i) => Some(i + 1)
  }

  /**
   * A decimal string read as a number of base units with `decimals` places: digits, then
   * optionally "." and at most `decimals` further digits, scaled by 10^decimals. Anything
   * else is rejected.
   */
  function ParseUnits(s: string, decimals: nat): Option<nat>
  {
    match IndexOf(s, '.')
    case None =>
      if s != "" && AllDigits(s) then Some(Value(s) * Pow10(decimals)) else None
    case Some(i) =>
      var whole, fraction := s[..i], s[i + 1..];
      if whole != "" && AllDigits(whole) && AllDigits(fraction) && |fraction| <= decimals
      then Some(Value(whole) * Pow10(decimals) + Value(fraction) * Pow10(decimals - |fraction|))
      else None
  }

  lemma NoDotInDigits(s: string)
    requires AllDigits(s)
    ensures '.' !in s
  {
  }

  lemma {:induction false} IndexOfAfterDigits(a: string, b: string)
    requires AllDigits(a) && b != [] && b[0] == '.'
    ensures IndexOf(a + b, '.') == Some(|a|)
    decreases |a|
  {
    if a == [] {
      assert a + b == b;
    } else {
      assert (a + b)[1..] == a[1..] + b;
      assert IsDigit(a[0]);
      IndexOfAfterDigits(a[1..], b);
    }
  }

  /** Reading back an integer part and a fraction joined as `formatBalance` joins them. */
  lemma ParseJoined(whole: string, fraction: string, decimals: nat, n: nat)
    requires whole != "" && AllDigits(whole) && AllDigits(fraction) && |fraction| <= decimals
    requires Value(whole) * Pow10(decimals) + Value(fraction) * Pow10(decimals - |fraction|) == n
    ensures ParseUnits(whole + (if fraction == "" then "" else "." + fraction), decimals) == Some(n)
  {
    NoDotInDigits(whole);
    if fraction == "" {
      assert whole + "" == whole;
      assert Value(fraction) == 0;
    } else {
      var r := whole + ("." + fraction);
      IndexOfAfterDigits(whole, "." + fraction);
      assert r[..|whole|] == whole && r[|whole| + 1..] == fraction;
    }
  }

  lemma RoundTripZero(decimals: nat)
    ensures ParseUnits(FormatBalance(0, decimals), decimals) == Some(0)
  {
    assert FormatBalance(0, decimals) == "0";
    assert Value("0") == 0 by { assert "0"[..0] == []; }
    assert IndexOf("0", '.') == None;
  }

  lemma RoundTripInteger(balance: nat)
    requires balance > 0
    ensures ParseUnits(FormatBalance(balance, 0), 0) == Some(balance)
  {
    var r := NatToString(balance);
    assert FormatBalance(balance, 0) == r;
    ValueOfNatToString(balance);
    NoDotInDigits(r);
  }

  lemma RoundTripFraction(balance: nat, decimals: nat)
    requires balance > 0 && decimals >= 1
    ensures ParseUnits(FormatBalance(balance, decimals), decimals) == Some(balance)
  {
    var parts := BalanceParts(balance, decimals);
    var whole, fraction := parts.0, parts.1;
    var joined := whole + (if fraction == "" then "" else "." + fraction);
    assert FormatBalance(balance, decimals) == joined by { FormatBalanceJoinsParts(balance, decimals); }
    assert whole != "" by { BalancePartsAre(balance, decimals); }
    BalancePartsMeaning(balance, decimals);
    ParseJoined(whole, fraction, decimals, balance);
  }

  /** Reading the rendering back with the same number of decimals gives the balance. */
  lemma FormatBalanceRoundTrip(balance: nat, decimals: nat)
    ensures ParseUnits(FormatBalance(balance, decimals), decimals) == Some(balance)
  {
    if balance == 0 {
      RoundTripZero(decimals);
    } else if decimals == 0 {
      RoundTripInteger(balance);
    } else {
      RoundTripFraction(balance, decimals);
    }
  }

  /** A rendering never ends in "." and, once it has a ".", never ends in "0". */
  lemma FormatBalanceCanonical(balance: nat, decimals: nat)
    ensures var r := FormatBalance(balance, decimals);
      r != "" && r[|r| - 1] != '.' && ('.' in r ==> r[|r| - 1] != '0')
  {
    var r := FormatBalance(balance, decimals);
    if balance > 0 && decimals >= 1 {
      var (whole, fraction) := BalanceParts(balance, decimals);
      BalancePartsMeaning(balance, decimals);
      FormatBalanceJoinsParts(balance, decimals);
      NoDotInDigits(whole);
      if fraction == "" {
        assert r == whole;
      } else {
        assert r == whole + "." + fraction;
        assert r[|r| - 1] == fraction[|fraction| - 1];
        assert IsDigit(fraction[|fraction| - 1]);
      }
    } else if balance > 0 {
      NoDotInDigits(r);
    }
  }

  // ---------------------------------------------------------------------------------
  // formatAddress, shortenHash, isValidAddress

  /** `formatAddress`: the first six characters, "...", and the last four. */
  function FormatAddress(address: string): (r: string)
    ensures address == "" ==> r == ""
    ensures address != "" ==>
      r == address[..Min(6, |address|)] + "..." + address[Max(0, |address| - 4)..]
    ensures |address| >= 6 ==> |r| == 13
  {
    if address == "" then "" else Slice(address, 0, 6) + "..." + SliceFrom(address, -4)
  }

  /** `shortenHash`: the first and last `chars` characters around "..." (default 6). */
  function ShortenHash(hash: string, chars: int): (r: string)
    ensures hash == "" ==> r == ""
    ensures hash != "" && chars >= 1 ==>
      var k := Min(chars, |hash|);
      r == hash[..k] + "..." + hash[|hash| - k..] && |r| == 2 * k + 3
    ensures hash != "" && chars == 0 ==> r == "..." + hash
  {
    if hash == "" then "" else Slice(hash, 0, chars) + "..." + SliceFrom(hash, -chars)
  }

  function ShortenHashDefault(hash: string): string { ShortenHash(hash, 6) }

  predicate IsHexDigit(c: char) { '0' <= c <= '9' || 'a' <= c <= 'f' || 'A' <= c <= 'F' }

  /** Does `[a-fA-F0-9]{n}$` match `s` from its start? */
  predicate HexRunOf(s: string, n: nat)
    decreases |s|
  {
    if s == [] then n == 0 else n > 0 && IsHexDigit(s[0]) && HexRunOf(s[1..], n - 1)
  }

  lemma {:induction false} HexRunOfMeaning(s: string, n: nat)
    ensures HexRunOf(s, n) <==> |s| == n && forall i :: 0 <= i < |s| ==> IsHexDigit(s[i])
    decreases |s|
  {
    if s != [] {
      HexRunOfMeaning(s[1..], if n > 0 then n - 1 else 0);
      if |s| == n && (forall i :: 0 <= i < |s| ==> IsHexDigit(s[i])) {
        assert forall i :: 0 <= i < |s[1..]| ==> IsHexDigit(s[1..][i]) by {
          forall i | 0 <= i < |s[1..]| ensures IsHexDigit(s[1..][i]) { assert s[1..][i] == s[i + 1]; }
        }
      }
      if HexRunOf(s, n) {
        forall i | 0 <= i < |s| ensures IsHexDigit(s[i]) {
          if i > 0 { assert s[i] == s[1..][i - 1]; }
        }
      }
    }
  }

  /** `isValidAddress`: the regular expression `^0x[a-fA-F0-9]{40}$`. */
  function IsValidAddress(address: string): (b: bool)
    ensures b <==> |address| == 42 && address[..2] == "0x"
                   && forall i :: 2 <= i < 42 ==> IsHexDigit(address[i])
  {
    if |address| < 2 then false
    else
      HexRunOfMeaning(address[2..], 40);
      assert forall i :: 2 <= i < |address| ==> address[i] == address[2..][i - 2];
      address[0] == '0' && address[1] == 'x' && HexRunOf(address[2..], 40)
  }

  // ---------------------------------------------------------------------------------
  // timeAgo

  /** The units of `timeAgo`, largest first, with their length in seconds. */
  const Intervals: seq<(string, nat)> :=
    [("year", 31536000), ("month", 2592000), ("week", 604800),
     ("day", 86400), ("hour", 3600), ("minute", 60)]

  /** `Math.floor((now - timestamp) / 1000)`: Dafny's division by a positive divisor floors. */
  function ElapsedSeconds(now: int, timestamp: int): int { (now - timestamp) / 1000 }

  /** "N unit ago", the unit taking an "s" exactly when N > 1. */
  function Phrase(count: nat, unit: string): string
  {
    NatToString(count) + " " + unit + (if count > 1 then "s" else "") + " ago"
  }

  /** Unit `i` is the first, largest first, of which at least one whole one has elapsed. */
  ghost predicate IsChosenUnit(seconds: int, i: nat)
  {
    i < |Intervals| && seconds / Intervals[i].1 >= 1
    && forall j :: 0 <= j < i ==> seconds / Intervals[j].1 < 1
  }

  lemma DivAtLeastOne(a: int, b: int)
    requires b > 0 && a / b >= 1
    ensures a >= b
  {
    assert a == b * (a / b) + a % b;
    MulAtLeast(a / b, b);
  }

  /** `timeAgo`, with the current clock reading passed in as `now` (milliseconds). */
  method TimeAgo(now: int, timestamp: int) returns (r: string)
    ensures var seconds := ElapsedSeconds(now, timestamp);
      (r == "just now" <==> seconds < 60)
      && (seconds >= 60 ==>
            exists i: nat :: IsChosenUnit(seconds, i)
                        && r == Phrase(seconds / Intervals[i].1, Intervals[i].0))
  {
    var seconds := ElapsedSeconds(now, timestamp);
    var i := 0;
    while i < |Intervals|
      invariant 0 <= i <= |Intervals|
      invariant forall j :: 0 <= j < i ==> seconds / Intervals[j].1 < 1
    {
      var (unit, secondsInUnit) := Intervals[i];
      var interval := seconds / secondsInUnit;
      if interval >= 1 {
        r := Phrase(interval, unit);
        assert IsChosenUnit(seconds, i);
        DivAtLeastOne(seconds, secondsInUnit);
        assert r[|r| - 1] == 'o';
        return;
      }
      i := i + 1;
    }
    assert Intervals[5].1 == 60;
    r := "just now";
  }
}
