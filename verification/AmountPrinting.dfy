/** Printing amounts, and reading them back. */
module AmountPrinting {
  import opened Common
  import opened Amount

  datatype Alignment = Left | Center | Right

  /** The options of a formatter. */
  datatype Options = Options(
    width: Option<nat>,
    precision: Option<nat>,
    alignment: Option<Alignment>,
    fill: char,
    signPlus: bool)

  function Repeat(c: char, k: nat): (s: string)
    ensures |s| == k
  {
    if k == 0 then "" else Repeat(c, k - 1) + [c]
  }

  function DigitChar(d: nat): (c: char)
    requires d < 10
    ensures IsDigit(c) && DigitOf(c) == d
  {
    ('0' as int + d) as char
  }

  function ToDigits(n: nat): string {
    if n < 10 then [DigitChar(n)] else ToDigits(n / 10) + [DigitChar(n % 10)]
  }

  function SaturatingSub(a: nat, b: nat): nat {
    if a >= b then a - b else 0
  }

  function Max(a: nat, b: nat): nat {
    if a >= b then a else b
  }

  /** All the digits, padded with zeros to cover a digit before the decimal point. */
  function Decimals(amount: nat, places: nat): (s: string)
    ensures |s| > places
  {
    var digits := ToDigits(amount);
    Repeat('0', SaturatingSub(places + 1, |digits|)) + digits
  }

  function WholeOf(amount: nat, places: nat): string {
    Decimals(amount, places)[..|Decimals(amount, places)| - places]
  }

  function TrimZeros(s: string): string {
    if s != [] && s[|s| - 1] == '0' then TrimZeros(s[..|s| - 1]) else s
  }

  function FractionOf(amount: nat, places: nat): string {
    TrimZeros(Decimals(amount, places)[|Decimals(amount, places)| - places..])
  }

  /** The digits after the point: none is dropped, and there are at least as many as asked for. */
  function Precision(amount: nat, o: Options, places: nat): nat {
    Max(if o.precision.Some? then o.precision.value else 0, |FractionOf(amount, places)|)
  }

  function Sign(amount: nat, o: Options): string {
    if o.signPlus && amount > 0 then "+" else ""
  }

  function Number(amount: nat, o: Options, places: nat): string {
    WholeOf(amount, places) + "." + Tail(amount, o, places)
  }

  function PadWidth(amount: nat, o: Options, places: nat): nat {
    if o.width.None? then 0
    else SaturatingSub(SaturatingSub(o.width.value, Precision(amount, o, places)),
                       |Sign(amount, o)| + |WholeOf(amount, places)| + 1)
  }

  function LeftPad(amount: nat, o: Options, places: nat): (n: nat)
    ensures n <= PadWidth(amount, o, places)
  {
    match o.alignment
    case None => PadWidth(amount, o, places)
    case Some(Right) => PadWidth(amount, o, places)
    case Some(Center) => PadWidth(amount, o, places) / 2
    case Some(Left) => 0
  }

  function Printed(amount: nat, o: Options, places: nat): string {
    var left := LeftPad(amount, o, places);
    Repeat(o.fill, left) + (Sign(amount, o) + Number(amount, o, places))
      + Repeat(o.fill, PadWidth(amount, o, places) - left)
  }

  /** Prints an amount: padding in loops around the sign and the number. */
  method Display(amount: nat, o: Options) returns (out: string)
    ensures out == Printed(amount, o, DECIMAL_PLACES)
  {
    var padWidth, leftPad := PadWidth(amount, o, DECIMAL_PLACES), LeftPad(amount, o, DECIMAL_PLACES);
    out := "";
    for i := 0 to leftPad
      invariant out == Repeat(o.fill, i)
    {
      out := out + [o.fill];
    }
    out := out + (Sign(amount, o) + Number(amount, o, DECIMAL_PLACES));
    ghost var front := out;
    for i := leftPad to padWidth
      invariant out == front + Repeat(o.fill, i - leftPad)
    {
      out := out + [o.fill];
    }
  }

  // ----- Digits -----

  predicate AllDigits(s: string) {
    forall i :: 0 <= i < |s| ==> IsDigit(s[i])
  }

  lemma {:induction false} AllDigitsFacts(s: string)
    requires AllDigits(s)
    ensures Plain(s) && CountDigits(s) == |s|
  {
    if s != [] {
      AllDigitsFacts(s[..|s| - 1]);
    }
  }

  lemma {:induction false} ToDigitsFacts(n: nat)
    ensures AllDigits(ToDigits(n)) && ValueOf(ToDigits(n)) == n && |ToDigits(n)| >= 1
  {
    if n < 10 {
      SnocFacts("", DigitChar(n));
      assert "" + [DigitChar(n)] == [DigitChar(n)];
    } else {
      ToDigitsFacts(n / 10);
      SnocFacts(ToDigits(n / 10), DigitChar(n % 10));
    }
  }

  lemma {:induction false} ValueConcat(a: string, b: string)
    requires AllDigits(b)
    ensures ValueOf(a + b) == Scale(ValueOf(a), |b|) + ValueOf(b)
  {
    if b == [] {
      assert a + b == a;
    } else {
      var front, last := b[..|b| - 1], b[|b| - 1];
      ValueConcat(a, front);
      assert a + b == (a + front) + [last] && b == front + [last];
      SnocFacts(a + front, last);
      SnocFacts(front, last);
    }
  }

  lemma {:induction false} RepeatFacts(c: char, k: nat)
    ensures forall i :: 0 <= i < k ==> Repeat(c, k)[i] == c
  {
    if k > 0 {
      RepeatFacts(c, k - 1);
    }
  }

  lemma {:induction false} ZerosFacts(k: nat)
    ensures AllDigits(Repeat('0', k)) && ValueOf(Repeat('0', k)) == 0
  {
    if k > 0 {
      ZerosFacts(k - 1);
      SnocFacts(Repeat('0', k - 1), '0');
    }
  }

  lemma {:induction false} ScaleZero(n: nat)
    ensures Scale(0, n) == 0
  {
    if n > 0 {
      ScaleZero(n - 1);
    }
  }

  lemma DecimalsFacts(amount: nat, places: nat)
    ensures AllDigits(Decimals(amount, places)) && ValueOf(Decimals(amount, places)) == amount
  {
    var digits := ToDigits(amount);
    var k := SaturatingSub(places + 1, |digits|);
    ToDigitsFacts(amount);
    ZerosFacts(k);
    ValueConcat(Repeat('0', k), digits);
    ScaleZero(|digits|);
  }

  lemma {:induction false} TrimZerosFacts(s: string)
    ensures |TrimZeros(s)| <= |s| && s == TrimZeros(s) + Repeat('0', |s| - |TrimZeros(s)|)
  {
    if s != [] && s[|s| - 1] == '0' {
      TrimZerosFacts(s[..|s| - 1]);
      var t := TrimZeros(s);
      assert s == (t + Repeat('0', |s| - 1 - |t|)) + ['0'] == t + (Repeat('0', |s| - 1 - |t|) + ['0']);
    }
  }

  /** Zeros at the end only scale. */
  lemma ZerosScale(s: string, k: nat)
    ensures ValueOf(s + Repeat('0', k)) == Scale(ValueOf(s), k)
    ensures AllDigits(s) ==> AllDigits(s + Repeat('0', k))
  {
    ZerosFacts(k);
    ValueConcat(s, Repeat('0', k));
  }

  lemma WholeAndTail(amount: nat, places: nat)
    ensures var decimals, whole := Decimals(amount, places), WholeOf(amount, places);
      var tail := decimals[|decimals| - places..];
      && AllDigits(whole) && whole != "" && AllDigits(tail) && Scale(ValueOf(whole), places) + ValueOf(tail) == amount
  {
    var decimals, whole := Decimals(amount, places), WholeOf(amount, places);
    var tail := decimals[|decimals| - places..];
    DecimalsFacts(amount, places);
    assert decimals == whole + tail;
    ValueConcat(whole, tail);
  }

  lemma TrimmedFacts(s: string)
    requires AllDigits(s)
    ensures |TrimZeros(s)| <= |s| && AllDigits(TrimZeros(s))
    ensures Scale(ValueOf(TrimZeros(s)), |s| - |TrimZeros(s)|) == ValueOf(s)
  {
    var t := TrimZeros(s);
    TrimZerosFacts(s);
    assert forall i :: 0 <= i < |t| ==> t[i] == s[i];
    ZerosScale(t, |s| - |t|);
  }

  /** The whole part and the fraction make up the amount. */
  lemma PartsFacts(amount: nat, places: nat)
    ensures var whole, fraction := WholeOf(amount, places), FractionOf(amount, places);
      && AllDigits(whole) && whole != "" && AllDigits(fraction) && |fraction| <= places
      && Scale(ValueOf(whole), places) + Scale(ValueOf(fraction), places - |fraction|) == amount
  {
    var decimals := Decimals(amount, places);
    WholeAndTail(amount, places);
    TrimmedFacts(decimals[|decimals| - places..]);
  }

  /** The digits after the point, with the zeros that were asked for. */
  function Tail(amount: nat, o: Options, places: nat): string {
    FractionOf(amount, places) + Repeat('0', Precision(amount, o, places) - |FractionOf(amount, places)|)
  }

  lemma TailFacts(amount: nat, o: Options, places: nat)
    ensures var tail, fraction, p := Tail(amount, o, places), FractionOf(amount, places), Precision(amount, o, places);
      && Plain(tail) && AllDigits(tail) && CountDigits(tail) == p
      && ValueOf(tail) == Scale(ValueOf(fraction), p - |fraction|)
  {
    var fraction := FractionOf(amount, places);
    PartsFacts(amount, places);
    ZerosScale(fraction, Precision(amount, o, places) - |fraction|);
    AllDigitsFacts(Tail(amount, o, places));
  }

  lemma SplitNumber(amount: nat, o: Options, places: nat)
    ensures Split(Number(amount, o, places)) == Amount.Number(WholeOf(amount, places), true, Tail(amount, o, places))
  {
    var whole, tail := WholeOf(amount, places), Tail(amount, o, places);
    PartsFacts(amount, places);
    assert Number(amount, o, places) == Join(Amount.Number(whole, true, tail));
    assert '.' !in whole by { assert forall i :: 0 <= i < |whole| ==> whole[i] != '.'; }
    JoinIsInverse(Amount.Number(whole, true, tail));
  }

  lemma PartsRepresent(whole: string, fraction: string, tail: string, p: nat, places: nat, amount: nat)
    requires amount <= U128_MAX && |fraction| <= places && |fraction| <= p
    requires AllDigits(whole) && whole != "" && Plain(tail) && AllDigits(tail) && CountDigits(tail) == p
    requires ValueOf(tail) == Scale(ValueOf(fraction), p - |fraction|)
    requires Scale(ValueOf(whole), places) + Scale(ValueOf(fraction), places - |fraction|) == amount
    ensures Represents(Amount.Number(whole, true, tail), places, amount) <==> p <= places
    ensures p > places ==> forall x :: !Represents(Amount.Number(whole, true, tail), places, x)
  {
    AllDigitsFacts(whole);
    if p <= places {
      ScaleTwice(ValueOf(fraction), p - |fraction|, places - p);
    }
  }

  /** The printed number stands for the amount, unless more decimal places are printed than there are. */
  lemma NumberRepresents(amount: nat, o: Options, places: nat)
    requires amount <= U128_MAX
    ensures Represents(Split(Number(amount, o, places)), places, amount) <==> Precision(amount, o, places) <= places
    ensures Precision(amount, o, places) > places ==>
      forall x :: !Represents(Split(Number(amount, o, places)), places, x)
  {
    SplitNumber(amount, o, places);
    TailFacts(amount, o, places);
    PartsFacts(amount, places);
    PartsRepresent(WholeOf(amount, places), FractionOf(amount, places), Tail(amount, o, places),
                   Precision(amount, o, places), places, amount);
  }

  // ----- Space -----

  lemma {:induction false} TrimStartPadding(fill: char, k: nat, s: string)
    requires IsSpace(fill) && s != [] && !IsSpace(s[0])
    ensures TrimStart(Repeat(fill, k) + s) == s
  {
    if k == 0 {
      assert Repeat(fill, k) + s == s;
    } else {
      TrimStartPadding(fill, k - 1, s);
      RepeatFacts(fill, k);
      RepeatFacts(fill, k - 1);
      assert (Repeat(fill, k) + s)[1..] == Repeat(fill, k - 1) + s;
    }
  }

  lemma {:induction false} TrimEndPadding(fill: char, k: nat, s: string)
    requires IsSpace(fill) && s != [] && !IsSpace(s[|s| - 1])
    ensures TrimEnd(s + Repeat(fill, k)) == s
  {
    if k == 0 {
      assert s + Repeat(fill, k) == s;
    } else {
      TrimEndPadding(fill, k - 1, s);
      assert (s + Repeat(fill, k))[..|s| + k - 1] == s + Repeat(fill, k - 1);
    }
  }

  lemma NumberEnds(amount: nat, o: Options, places: nat)
    ensures var number := Number(amount, o, places);
      number != "" && IsDigit(number[0]) && (IsDigit(number[|number| - 1]) || number[|number| - 1] == '.')
  {
    var tail := Tail(amount, o, places);
    PartsFacts(amount, places);
    TailFacts(amount, o, places);
    assert Number(amount, o, places)[0] == WholeOf(amount, places)[0];
    if tail != "" {
      assert Number(amount, o, places)[|Number(amount, o, places)| - 1] == tail[|tail| - 1];
    }
  }

  lemma TrimPadding(fill: char, left: nat, core: string, right: nat)
    requires IsSpace(fill) && core != [] && !IsSpace(core[0]) && !IsSpace(core[|core| - 1])
    ensures TrimEnd(TrimStart(Repeat(fill, left) + core + Repeat(fill, right))) == core
  {
    assert Repeat(fill, left) + core + Repeat(fill, right) == Repeat(fill, left) + (core + Repeat(fill, right));
    TrimStartPadding(fill, left, core + Repeat(fill, right));
    TrimEndPadding(fill, right, core);
  }

  /** The space around a number and its plus sign are dropped. */
  lemma BodyOfPrinted(amount: nat, o: Options, places: nat)
    requires IsSpace(o.fill)
    ensures Body(Printed(amount, o, places)) == Number(amount, o, places)
  {
    var left := LeftPad(amount, o, places);
    NumberEnds(amount, o, places);
    BodyOfPadded(o.fill, left, Sign(amount, o), Number(amount, o, places), PadWidth(amount, o, places) - left);
  }

  lemma BodyOfPadded(fill: char, left: nat, sign: string, number: string, right: nat)
    requires IsSpace(fill) && (sign == "+" || sign == "")
    requires number != "" && IsDigit(number[0]) && (IsDigit(number[|number| - 1]) || number[|number| - 1] == '.')
    ensures Body(Repeat(fill, left) + (sign + number) + Repeat(fill, right)) == number
  {
    var core := sign + number;
    assert core[|core| - 1] == number[|number| - 1];
    TrimPadding(fill, left, core, right);
    BodyOfTrimmed(Repeat(fill, left) + core + Repeat(fill, right), sign, number);
  }

  lemma BodyOfTrimmed(text: string, sign: string, number: string)
    requires (sign == "+" || sign == "") && number != "" && IsDigit(number[0])
    requires TrimEnd(TrimStart(text)) == sign + number
    ensures Body(text) == number
  {
    var core := sign + number;
    if sign == "+" {
      assert core[0] == '+' && core[1..] == number;
    } else {
      assert core == number;
    }
  }

  /**
    The text of an amount stands for that amount if and only if no more than eighteen decimal places were asked for.
   */
  lemma RoundTrip(amount: nat, o: Options)
    requires amount <= U128_MAX && IsSpace(o.fill)
    ensures Represents(Split(Body(Printed(amount, o, DECIMAL_PLACES))), DECIMAL_PLACES, amount)
      <==> (o.precision.Some? ==> o.precision.value <= DECIMAL_PLACES)
  {
    BodyOfPrinted(amount, o, DECIMAL_PLACES);
    NumberRepresents(amount, o, DECIMAL_PLACES);
    PartsFacts(amount, DECIMAL_PLACES);
  }

  /** Printing and then reading gives the amount back, exactly in those cases. */
  method PrintAndRead(amount: nat, o: Options) returns (result: Result<nat, ParseAmountError>)
    requires amount <= U128_MAX && IsSpace(o.fill)
    ensures result == Ok(amount) <==> (o.precision.Some? ==> o.precision.value <= DECIMAL_PLACES)
  {
    var out := Display(amount, o);
    result := FromStr(out);
    RoundTrip(amount, o);
  }
}
