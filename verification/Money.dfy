/** Exact money in minor units (internal/domain/money.go): arithmetic, strict parsing, printing. */
module Money {
  import opened Wrappers
  import opened Failures
  import Int64

  datatype Money = Money(minor: int, currency: string)

  // ---------------------------------------------------------------- arithmetic

  function Add(m: Money, o: Money): (r: Result<Money, Code>)
    requires Int64.Fits(m.minor) && Int64.Fits(o.minor)
    ensures m.currency != o.currency ==> r == Err(CurrencyMismatch)
    ensures m.currency == o.currency && Int64.Fits(m.minor + o.minor) ==>
              r == Ok(Money(m.minor + o.minor, m.currency))
    ensures m.currency == o.currency && !Int64.Fits(m.minor + o.minor) ==> r == Err(MoneyOverflow)
  {
    if m.currency != o.currency then Err(CurrencyMismatch)
    else
      var sum := Int64.Wrap(m.minor + o.minor);
      Int64.SignOfXorAndXor(m.minor, sum, o.minor, sum);
      if Int64.Negative(Int64.And(Int64.Xor(Int64.Bits(m.minor), Int64.Bits(sum)),
                                  Int64.Xor(Int64.Bits(o.minor), Int64.Bits(sum))))
      then Err(MoneyOverflow)
      else Ok(Money(sum, m.currency))
  }

  function Sub(m: Money, o: Money): (r: Result<Money, Code>)
    requires Int64.Fits(m.minor) && Int64.Fits(o.minor)
    ensures m.currency != o.currency ==> r == Err(CurrencyMismatch)
    ensures m.currency == o.currency && Int64.Fits(m.minor - o.minor) ==>
              r == Ok(Money(m.minor - o.minor, m.currency))
    ensures m.currency == o.currency && !Int64.Fits(m.minor - o.minor) ==> r == Err(MoneyOverflow)
  {
    if m.currency != o.currency then Err(CurrencyMismatch)
    else
      var diff := Int64.Wrap(m.minor - o.minor);
      Int64.SignOfXorAndXor(m.minor, o.minor, m.minor, diff);
      if Int64.Negative(Int64.And(Int64.Xor(Int64.Bits(m.minor), Int64.Bits(o.minor)),
                                  Int64.Xor(Int64.Bits(m.minor), Int64.Bits(diff))))
      then Err(MoneyOverflow)
      else Ok(Money(diff, m.currency))
  }

  // ---------------------------------------------------------------- text forms

  predicate IsDigit(c: char) {
    '0' <= c <= '9'
  }

  predicate Digits(s: string) {
    forall i :: 0 <= i < |s| ==> IsDigit(s[i])
  }

  function DigitsValue(s: string): nat
    requires Digits(s)
  {
    if s == [] then 0
    else DigitsValue(s[..|s| - 1]) * 10 + (s[|s| - 1] - '0') as int
  }

  predicate ValidCurrency(s: string) {
    |s| == 3 && forall i :: 0 <= i < 3 ==> 'A' <= s[i] <= 'Z'
  }

  /** The grammar of an external amount: digits, one dot, exactly two digits. */
  predicate AmountText(s: string) {
    && |s| >= 4
    && Digits(s[..|s| - 3])
    && s[|s| - 3] == '.'
    && Digits(s[|s| - 2..])
  }

  function AmountValue(s: string): nat
    requires AmountText(s)
  {
    DigitsValue(s[..|s| - 3]) * 100 + DigitsValue(s[|s| - 2..])
  }

  /** What parsing means: the grammar, then the int64 range, then the value. */
  function Parsed(s: string, currency: string): Result<Money, Code> {
    if !ValidCurrency(currency) || !AmountText(s) then Err(InvalidMoney)
    else if AmountValue(s) > Int64.MAX then Err(MoneyOverflow)
    else Ok(Money(AmountValue(s), currency))
  }

  method IndexOf(s: string, c: char) returns (k: int)
    ensures -1 <= k < |s|
    ensures k >= 0 ==> s[k] == c && c !in s[..k]
    ensures k == -1 ==> c !in s
  {
    k := 0;
    while k < |s|
      invariant 0 <= k <= |s|
      invariant c !in s[..k]
    {
      if s[k] == c {
        return;
      }
      k := k + 1;
    }
    k := -1;
  }

  method AllDigits(s: string) returns (ok: bool)
    ensures ok == Digits(s)
  {
    for i := 0 to |s|
      invariant Digits(s[..i])
    {
      if s[i] < '0' || s[i] > '9' {
        return false;
      }
      assert s[..i + 1] == s[..i] + [s[i]];
    }
    assert s[..|s|] == s;
    return true;
  }

  lemma {:induction false} PrefixValueAtMost(s: string, k: nat)
    requires Digits(s) && k <= |s|
    ensures DigitsValue(s[..k]) <= DigitsValue(s)
  {
    if k < |s| {
      PrefixValueAtMost(s[..|s| - 1], k);
      assert s[..|s| - 1][..k] == s[..k];
    } else {
      assert s[..k] == s;
    }
  }

  /** strconv.ParseInt on a digit string: the value, or a range error. */
  method ParseInt(s: string) returns (r: Result<int, Code>)
    requires Digits(s)
    ensures r == if DigitsValue(s) > Int64.MAX then Err(MoneyOverflow) else Ok(DigitsValue(s))
  {
    var value := 0;
    for i := 0 to |s|
      invariant value == DigitsValue(s[..i]) <= Int64.MAX
    {
      value := value * 10 + (s[i] - '0') as int;
      assert s[..i + 1][..i] == s[..i];
      if value > Int64.MAX {
        PrefixValueAtMost(s, i + 1);
        return Err(MoneyOverflow);
      }
    }
    assert s[..|s|] == s;
    return Ok(value);
  }

  method ParseMoney(s: string, currency: string) returns (r: Result<Money, Code>)
    ensures r == Parsed(s, currency)
  {
    if |currency| != 3 {
      return Err(InvalidMoney);
    }
    for i := 0 to 3
      invariant forall j :: 0 <= j < i ==> 'A' <= currency[j] <= 'Z'
    {
      if currency[i] < 'A' || currency[i] > 'Z' {
        return Err(InvalidMoney);
      }
    }
    if |s| < 4 {
      return Err(InvalidMoney);
    }
    var dot := IndexOf(s, '.');
    if dot < 0 {
      assert s[|s| - 3] != '.';
      return Err(InvalidMoney);
    }
    if AmountText(s) {
      DotPosition(s, dot);
    }
    var second := IndexOf(s[dot + 1..], '.');
    if second >= 0 {
      assert s[dot + 1 + second] == '.';
      return Err(InvalidMoney);
    }
    var whole, cents := s[..dot], s[dot + 1..];
    if |cents| != 2 || |whole| == 0 {
      return Err(InvalidMoney);
    }
    var wholeOk := AllDigits(whole);
    if !wholeOk {
      return Err(InvalidMoney);
    }
    var centsOk := AllDigits(cents);
    if !centsOk {
      return Err(InvalidMoney);
    }
    CentsBelowHundred(cents);
    var d := ParseInt(whole);
    if d.Err? {
      return Err(MoneyOverflow);
    }
    var c := ParseInt(cents);
    if d.value > (Int64.MAX - c.value) / 100 {
      return Err(MoneyOverflow);
    }
    return Ok(Money(d.value * 100 + c.value, currency));
  }

  lemma DotPosition(s: string, dot: nat)
    requires AmountText(s) && dot < |s| && s[dot] == '.' && '.' !in s[..dot]
    ensures dot == |s| - 3 && '.' !in s[dot + 1..]
  {
    forall k | 0 <= k < |s| && k != |s| - 3
      ensures s[k] != '.'
    {
      assert IsDigit(if k < |s| - 3 then s[..|s| - 3][k] else s[|s| - 2..][k - (|s| - 2)]);
    }
  }

  lemma CentsBelowHundred(c: string)
    requires Digits(c) && |c| == 2
    ensures DigitsValue(c) == (c[0] - '0') as int * 10 + (c[1] - '0') as int < 100
  {
    assert c[..1][..0] == [];
    assert DigitsValue(c[..1]) == (c[0] - '0') as int;
  }

  function Decimal(n: nat): (s: string)
    ensures s != [] && Digits(s)
  {
    var last := [(n % 10) as char + '0'];
    if n < 10 then last else Decimal(n / 10) + last
  }

  function TwoDigits(n: nat): (s: string)
    requires n < 100
    ensures |s| == 2 && Digits(s)
  {
    [(n / 10) as char + '0', (n % 10) as char + '0']
  }

  /** Money.String: the value as dollars and two-digit cents, with its sign. */
  function Render(minor: int): string
    requires Int64.Fits(minor)
  {
    if minor == Int64.MIN then
      var u := Int64.MAX + 1;
      "-" + Decimal(u / 100) + "." + TwoDigits(u % 100)
    else
      var abs := if minor < 0 then -minor else minor;
      (if minor < 0 then "-" else "") + Decimal(abs / 100) + "." + TwoDigits(abs % 100)
  }

  lemma {:induction false} DecimalValue(n: nat)
    ensures DigitsValue(Decimal(n)) == n
  {
    var s := Decimal(n);
    var last := [(n % 10) as char + '0'];
    assert (s[|s| - 1] - '0') as int == n % 10;
    if n < 10 {
      assert s[..|s| - 1] == [];
    } else {
      DecimalValue(n / 10);
      assert s[..|s| - 1] == Decimal(n / 10);
    }
  }

  /** Printing then parsing is the identity on every non-negative int64 amount. */
  lemma RenderThenParse(minor: int, currency: string)
    requires 0 <= minor <= Int64.MAX && ValidCurrency(currency)
    ensures Parsed(Render(minor), currency) == Ok(Money(minor, currency))
  {
    var whole, cents := Decimal(minor / 100), TwoDigits(minor % 100);
    var s := Render(minor);
    assert s == whole + "." + cents;
    assert s[..|s| - 3] == whole;
    assert s[|s| - 2..] == cents;
    assert s[|s| - 3] == '.';
    DecimalValue(minor / 100);
    CentsBelowHundred(cents);
  }

  /** Drops leading zeros, keeping one digit before the dot. */
  function StripZeros(s: string): string {
    if |s| > 1 && s[0] == '0' then StripZeros(s[1..]) else s
  }

  lemma {:induction false} LeadingZeroIsWorthless(s: string)
    requires Digits(s) && s != [] && s[0] == '0'
    ensures DigitsValue(s) == DigitsValue(s[1..])
  {
    if |s| == 1 {
      assert s[..0] == [];
      assert s[1..] == [];
    } else {
      LeadingZeroIsWorthless(s[..|s| - 1]);
      assert s[1..][..|s| - 2] == s[..|s| - 1][1..];
    }
  }

  lemma {:induction false} ShortestDigitsPrintBack(s: string)
    requires Digits(s) && s != [] && (|s| == 1 || s[0] != '0')
    ensures Decimal(DigitsValue(s)) == s
    ensures |s| > 1 ==> DigitsValue(s) >= 10
  {
    var front, n := s[..|s| - 1], DigitsValue(s);
    assert s == front + [s[|s| - 1]];
    if front == [] {
      assert DigitsValue(front) == 0;
    } else {
      ShortestDigitsPrintBack(front);
      if |front| == 1 {
        assert front[..0] == [];
        assert DigitsValue(front) == (front[0] - '0') as int;
      }
      assert n / 10 == DigitsValue(front) && n % 10 == (s[|s| - 1] - '0') as int;
    }
    assert (n % 10) as char + '0' == s[|s| - 1];
  }

  lemma {:induction false} StrippedDigitsPrint(s: string)
    requires Digits(s) && s != []
    ensures Decimal(DigitsValue(s)) == StripZeros(s)
  {
    if |s| > 1 && s[0] == '0' {
      LeadingZeroIsWorthless(s);
      StrippedDigitsPrint(s[1..]);
    } else {
      ShortestDigitsPrintBack(s);
    }
  }

  /** Parsing then printing changes nothing but leading zeros of the whole part. */
  lemma ParseThenRender(s: string, currency: string)
    requires Parsed(s, currency).Ok?
    ensures Render(Parsed(s, currency).value.minor) == StripZeros(s[..|s| - 3]) + s[|s| - 3..]
  {
    var whole, cents := s[..|s| - 3], s[|s| - 2..];
    var n := AmountValue(s);
    CentsBelowHundred(cents);
    assert n / 100 == DigitsValue(whole) && n % 100 == DigitsValue(cents);
    StrippedDigitsPrint(whole);
    assert TwoDigits(n % 100) == cents;
    assert s[|s| - 3..] == "." + cents;
  }

  /** `s` is digits, a dot and two digits, worth `value` cents. */
  ghost predicate Spells(s: string, value: int) {
    exists whole: string, cents: string ::
      && s == whole + "." + cents && whole != "" && Digits(whole) && |cents| == 2 && Digits(cents)
      && value == DigitsValue(whole) * 100 + DigitsValue(cents)
  }

  /** Parsing accepts exactly the spellings within int64, in a well-formed currency, and tells a value beyond
      int64 from malformed text. */
  lemma ParsedIff(s: string, currency: string, value: int)
    ensures Parsed(s, currency) == Ok(Money(value, currency)) <==>
              ValidCurrency(currency) && Spells(s, value) && value <= Int64.MAX
    ensures Parsed(s, currency) == Err(MoneyOverflow) <==>
              ValidCurrency(currency) && exists v :: Spells(s, v) && v > Int64.MAX
  {
    forall v | Spells(s, v)
      ensures AmountText(s) && AmountValue(s) == v
    {
      var whole: string, cents: string :|
        && s == whole + "." + cents && whole != "" && Digits(whole) && |cents| == 2 && Digits(cents)
        && v == DigitsValue(whole) * 100 + DigitsValue(cents);
      assert s[..|s| - 3] == whole && s[|s| - 2..] == cents && s[|s| - 3] == '.';
    }
    if AmountText(s) {
      var whole, cents := s[..|s| - 3], s[|s| - 2..];
      assert s == whole + "." + cents;
      assert Spells(s, AmountValue(s));
    }
  }

  /** A negative amount prints as a minus sign before its absolute value, the least int64 included. */
  lemma NegativePrints(minor: int)
    requires Int64.MIN <= minor < 0
    ensures minor > Int64.MIN ==> Render(minor) == "-" + Render(-minor)
    ensures minor == Int64.MIN ==> Render(minor) == "-" + Decimal((Int64.MAX + 1) / 100) + ".08"
  {
    assert (Int64.MAX + 1) % 100 == 8;
    assert "" + Decimal(-minor / 100) == Decimal(-minor / 100);
    assert TwoDigits(8) == "08";
    if minor > Int64.MIN {
      assert "-" + Decimal(-minor / 100) + "." + TwoDigits(-minor % 100)
          == "-" + (Decimal(-minor / 100) + "." + TwoDigits(-minor % 100));
    } else {
      assert "-" + Decimal((Int64.MAX + 1) / 100) + "." + "08" == "-" + Decimal((Int64.MAX + 1) / 100) + ".08";
    }
  }
}
