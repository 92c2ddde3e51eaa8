/** Token amounts as text: fixed-point decimal numbers with eighteen decimal places. */
module Amount {
  import opened Common

  const DECIMAL_PLACES: nat := 18

  datatype ParseAmountError = Parse | TooHigh | TooManyDigits

  predicate IsDigit(c: char) {
    '0' <= c <= '9'
  }

  function DigitOf(c: char): (d: nat)
    requires IsDigit(c)
    ensures d < 10
  {
    c as int - '0' as int
  }

  /** The characters that trimming removes. */
  predicate IsSpace(c: char) {
    || '\t' <= c <= '\r' || '\U{2000}' <= c <= '\U{200A}'
    || c in {' ', '\U{85}', '\U{A0}', '\U{1680}', '\U{2028}', '\U{2029}', '\U{202F}', '\U{205F}', '\U{3000}'}
  }

  /** A number times a power of ten. */
  function Scale(v: nat, n: nat): (r: nat)
    ensures r >= v
  {
    if n == 0 then v else 10 * Scale(v, n - 1)
  }

  // ----- The number that a text stands for -----

  function TrimStart(s: string): string {
    if s != [] && IsSpace(s[0]) then TrimStart(s[1..]) else s
  }

  function TrimEnd(s: string): string {
    if s != [] && IsSpace(s[|s| - 1]) then TrimEnd(s[..|s| - 1]) else s
  }

  /** A text without the space around it and without a leading plus sign. */
  function Body(src: string): string {
    var s := TrimEnd(TrimStart(src));
    if s != [] && s[0] == '+' then s[1..] else s
  }

  /** The number written by the digits of a text, whatever stands between them. */
  function ValueOf(s: string): nat {
    if s == [] then 0
    else if IsDigit(s[|s| - 1]) then 10 * ValueOf(s[..|s| - 1]) + DigitOf(s[|s| - 1])
    else ValueOf(s[..|s| - 1])
  }

  function CountDigits(s: string): nat {
    if s == [] then 0 else CountDigits(s[..|s| - 1]) + if IsDigit(s[|s| - 1]) then 1 else 0
  }

  /** Nothing but digits, which may be grouped with underscores. */
  predicate Plain(s: string) {
    s == [] || (Plain(s[..|s| - 1]) && (s[|s| - 1] == '_' || IsDigit(s[|s| - 1])))
  }

  /** A text around its first point, if there is one. */
  datatype Number = Number(whole: string, point: bool, fraction: string)

  function Join(n: Number): string {
    n.whole + if n.point then "." + n.fraction else ""
  }

  function Split(s: string): Number {
    if s == [] then Number("", false, "") else Extend(Split(s[..|s| - 1]), s[|s| - 1])
  }

  function Extend(n: Number, c: char): Number {
    if n.point then n.(fraction := n.fraction + [c])
    else if c == '.' then n.(point := true)
    else n.(whole := n.whole + [c])
  }

  predicate WellFormed(n: Number) {
    Plain(n.whole) && Plain(n.fraction)
  }

  /** The decimal number, in units of the last of some decimal places. */
  function Meaning(n: Number, places: nat): nat
    requires CountDigits(n.fraction) <= places
  {
    Scale(ValueOf(n.whole), places) + Scale(ValueOf(n.fraction), places - CountDigits(n.fraction))
  }

  /** The numbers that are amounts with some decimal places. */
  predicate Represents(n: Number, places: nat, amount: nat) {
    WellFormed(n) && CountDigits(n.fraction) <= places && Meaning(n, places) == amount <= U128_MAX
  }

  /** Splitting is the only way to read a text as a number: the whole part has no point. */
  lemma {:induction false} SplitIsInverse(s: string)
    ensures Join(Split(s)) == s && '.' !in Split(s).whole && (!Split(s).point ==> Split(s).fraction == "")
  {
    if s != [] {
      SplitIsInverse(s[..|s| - 1]);
      assert s == s[..|s| - 1] + [s[|s| - 1]];
    }
  }

  lemma {:induction false} JoinIsInverse(n: Number)
    requires '.' !in n.whole && (!n.point ==> n.fraction == "")
    ensures Split(Join(n)) == n
    decreases |Join(n)|, 1
  {
    var s := Join(n);
    if n.fraction != "" {
      var before := n.(fraction := n.fraction[..|n.fraction| - 1]);
      JoinStep(before, n.fraction[|n.fraction| - 1], n);
    } else if n.point {
      JoinStep(n.(point := false), '.', n);
    } else if n.whole != "" {
      var before := n.(whole := n.whole[..|n.whole| - 1]);
      JoinStep(before, n.whole[|n.whole| - 1], n);
    }
  }

  lemma JoinStep(before: Number, c: char, n: Number)
    requires '.' !in before.whole && (!before.point ==> before.fraction == "")
    requires Extend(before, c) == n && Join(n) == Join(before) + [c]
    ensures Split(Join(n)) == n
    decreases |Join(n)|, 0
  {
    JoinIsInverse(before);
    SnocFacts(Join(before), c);
  }

  lemma {:induction false} ScaleAdd(a: nat, b: nat, n: nat)
    ensures Scale(a + b, n) == Scale(a, n) + Scale(b, n)
  {
    if n > 0 {
      ScaleAdd(a, b, n - 1);
    }
  }

  lemma {:induction false} ScaleTwice(v: nat, m: nat, n: nat)
    ensures Scale(Scale(v, m), n) == Scale(v, m + n)
  {
    if n > 0 {
      ScaleTwice(v, m, n - 1);
    }
  }

  lemma SnocFacts(s: string, c: char)
    ensures ValueOf(s + [c]) == if IsDigit(c) then 10 * ValueOf(s) + DigitOf(c) else ValueOf(s)
    ensures CountDigits(s + [c]) == CountDigits(s) + if IsDigit(c) then 1 else 0
    ensures Plain(s + [c]) <==> Plain(s) && (c == '_' || IsDigit(c))
    ensures Split(s + [c]) == Extend(Split(s), c)
  {
    var t := s + [c];
    assert t[..|t| - 1] == s && t[|t| - 1] == c;
  }

  /** A number whose digits have the value `v`. */
  ghost predicate Spells(n: Number, v: nat) {
    v == Scale(ValueOf(n.whole), CountDigits(n.fraction)) + ValueOf(n.fraction)
  }

  /** The digits of a text are those of its whole part followed by those of its fraction. */
  lemma {:induction false} ValueOfSplit(s: string)
    ensures Spells(Split(s), ValueOf(s))
  {
    if s != [] {
      var front, c := s[..|s| - 1], s[|s| - 1];
      ValueOfSplit(front);
      SplitIsInverse(front);
      ValueExtend(Split(front), c, ValueOf(front));
    }
  }

  lemma ValueExtend(n: Number, c: char, v: nat)
    requires Spells(n, v) && (!n.point ==> n.fraction == "")
    ensures Spells(Extend(n, c), if IsDigit(c) then 10 * v + DigitOf(c) else v)
  {
    if n.point {
      FractionExtend(n, c, v);
    } else {
      SnocFacts(n.whole, c);
    }
  }

  lemma FractionExtend(n: Number, c: char, v: nat)
    requires Spells(n, v)
    ensures Spells(n.(fraction := n.fraction + [c]), if IsDigit(c) then 10 * v + DigitOf(c) else v)
  {
    SnocFacts(n.fraction, c);
    var k := CountDigits(n.fraction);
    assert Scale(ValueOf(n.whole), k + 1) == 10 * Scale(ValueOf(n.whole), k);
  }

  /** The value of all the digits, scaled for the missing decimal places, is the decimal number. */
  lemma MeaningIsScaled(n: Number, v: nat, places: nat)
    requires Spells(n, v) && CountDigits(n.fraction) <= places
    ensures Meaning(n, places) == Scale(v, places - CountDigits(n.fraction)) >= v
  {
    var k := CountDigits(n.fraction);
    ScaleAdd(Scale(ValueOf(n.whole), k), ValueOf(n.fraction), places - k);
    ScaleTwice(ValueOf(n.whole), k, places - k);
  }

  // ----- Reading -----

  /** What matters of the text read so far. */
  datatype Summary = Summary(wellFormed: bool, point: bool, decimals: nat, value: nat)

  ghost function Summarize(s: string): Summary {
    var n := Split(s);
    Summary(WellFormed(n), n.point, CountDigits(n.fraction), ValueOf(s))
  }

  function Append(x: Summary, c: char): Summary {
    if IsDigit(c) then x.(decimals := x.decimals + (if x.point then 1 else 0), value := 10 * x.value + DigitOf(c))
    else if c == '.' && !x.point then x.(point := true)
    else x.(wellFormed := x.wellFormed && c == '_')
  }

  lemma SummarizeStep(s: string, c: char)
    ensures Summarize(s + [c]) == Append(Summarize(s), c)
  {
    SnocFacts(s, c);
    if Split(s).point {
      SnocFacts(Split(s).fraction, c);
    } else if c != '.' {
      SnocFacts(Split(s).whole, c);
    }
  }

  /** The variables of the reader agree with what was read. */
  predicate Scanned(x: Summary, places: nat, result: nat, decimals: Option<nat>) {
    && x.wellFormed && result == x.value <= U128_MAX && (decimals.Some? <==> x.point)
    && x.decimals + (if decimals.Some? then decimals.value else places) == places
  }

  /** One step of reading: the value and the decimal places left after a character, or an error. */
  function Scan(c: char, places: nat, value: nat, decimals: Option<nat>): Result<(nat, Option<nat>), ParseAmountError> {
    if c == '_' then Ok((value, decimals))
    else if c == '.' then (if decimals.Some? then Err(Parse) else Ok((value, Some(places))))
    else if !IsDigit(c) then Err(Parse)
    else if decimals == Some(0) then Err(TooManyDigits)
    else if 10 * value + DigitOf(c) > U128_MAX then Err(TooHigh)
    else Ok((10 * value + DigitOf(c), if decimals.Some? then Some(decimals.value - 1) else None))
  }

  /** Reads a text character by character, up to the first error. */
  function ScanAll(s: string, places: nat): Result<(nat, Option<nat>), ParseAmountError> {
    if s == [] then Ok((0, None))
    else match ScanAll(s[..|s| - 1], places)
      case Ok(read) => Scan(s[|s| - 1], places, read.0, read.1)
      case Err(error) => Err(error)
  }

  /** The digits that were read, scaled for the decimal places that were not. */
  function ParseAll(s: string, places: nat): Result<nat, ParseAmountError> {
    match ScanAll(s, places)
    case Err(error) => Err(error)
    case Ok(read) =>
      var total := Scale(read.0, if read.1.Some? then read.1.value else places);
      if total > U128_MAX then Err(TooHigh) else Ok(total)
  }

  /** Why a text stands for no amount. */
  predicate Rejected(x: Summary, places: nat, error: ParseAmountError) {
    match error
    case Parse => !x.wellFormed
    case TooManyDigits => x.decimals > places
    case TooHigh => x.value > U128_MAX
  }

  lemma ScanStep(x: Summary, c: char, places: nat, result: nat, decimals: Option<nat>)
    requires Scanned(x, places, result, decimals)
    ensures match Scan(c, places, result, decimals)
      case Ok(next) => Scanned(Append(x, c), places, next.0, next.1)
      case Err(error) => Rejected(Append(x, c), places, error)
  {
  }

  /** Reading a text agrees with what the text is, and what is wrong with a prefix is wrong with the text. */
  lemma {:induction false} ScanAllIs(s: string, places: nat)
    ensures match ScanAll(s, places)
      case Ok(read) => Scanned(Summarize(s), places, read.0, read.1)
      case Err(error) => Rejected(Summarize(s), places, error)
  {
    if s != [] {
      var front, c := s[..|s| - 1], s[|s| - 1];
      ScanAllIs(front, places);
      assert s == front + [c];
      SummarizeStep(front, c);
      match ScanAll(front, places) {
        case Ok(read) => ScanStep(Summarize(front), c, places, read.0, read.1);
        case Err(error) => RejectedMore(Summarize(front), c, places, error);
      }
    }
  }

  lemma RejectedMore(x: Summary, c: char, places: nat, error: ParseAmountError)
    requires Rejected(x, places, error)
    ensures Rejected(Append(x, c), places, error)
  {
  }

  lemma {:induction false} ScanFails(s: string, i: nat, places: nat)
    requires i <= |s| && ScanAll(s[..i], places).Err?
    ensures ScanAll(s, places) == ScanAll(s[..i], places)
  {
    if i == |s| {
      assert s[..i] == s;
    } else {
      assert s[..|s| - 1][..i] == s[..i];
      ScanFails(s[..|s| - 1], i, places);
    }
  }

  /**
    Reading succeeds exactly on the texts that stand for an amount, with that amount. The error says
    what is wrong: a character, the number of decimal places, or the size.
   */
  lemma ParseAllIff(s: string, places: nat)
    ensures match ParseAll(s, places)
      case Ok(amount) => Represents(Split(s), places, amount)
      case Err(error) => (forall amount :: !Represents(Split(s), places, amount)) && Blamed(Split(s), places, error)
  {
    ScanAllIs(s, places);
    ValueOfSplit(s);
    match ScanAll(s, places) {
      case Ok(read) => ReadIs(Split(s), ValueOf(s), places, read.1);
      case Err(error) => ErrorIs(Split(s), ValueOf(s), places, error);
    }
  }

  lemma ReadIs(n: Number, v: nat, places: nat, decimals: Option<nat>)
    requires Spells(n, v) && Scanned(Summary(WellFormed(n), n.point, CountDigits(n.fraction), v), places, v, decimals)
    ensures var total := Scale(v, if decimals.Some? then decimals.value else places);
      if total <= U128_MAX then Represents(n, places, total)
      else (forall amount :: !Represents(n, places, amount)) && Blamed(n, places, TooHigh)
  {
    MeaningIsScaled(n, v, places);
  }

  lemma ErrorIs(n: Number, v: nat, places: nat, error: ParseAmountError)
    requires Spells(n, v) && Rejected(Summary(WellFormed(n), n.point, CountDigits(n.fraction), v), places, error)
    ensures (forall amount :: !Represents(n, places, amount)) && Blamed(n, places, error)
  {
    if CountDigits(n.fraction) <= places {
      MeaningIsScaled(n, v, places);
    }
  }

  /** What an error says about a text: of two things that are wrong, the first one that was read. */
  ghost predicate Blamed(n: Number, places: nat, error: ParseAmountError) {
    match error
    case Parse => !WellFormed(n)
    case TooManyDigits => CountDigits(n.fraction) > places
    case TooHigh => CountDigits(n.fraction) <= places ==> Meaning(n, places) > U128_MAX
  }

  /** Reads a body up to the first error. */
  method ParseBody(body: string, places: nat) returns (result: Result<nat, ParseAmountError>)
    ensures result == ParseAll(body, places)
  {
    var value: nat, decimals: Option<nat> := 0, None;
    for i := 0 to |body|
      invariant ScanAll(body[..i], places) == Ok((value, decimals))
    {
      var c := body[i];
      assert body[..i + 1][..i] == body[..i];
      if ScanAll(body[..i + 1], places).Err? {
        ScanFails(body, i + 1, places);
      }
      if c == '_' {
      } else if c == '.' && decimals.Some? {
        return Err(Parse);
      } else if c == '.' {
        decimals := Some(places);
      } else if !IsDigit(c) {
        return Err(Parse);
      } else if decimals == Some(0) {
        return Err(TooManyDigits);
      } else {
        decimals := if decimals.Some? then Some(decimals.value - 1) else None;
        value := 10 * value + DigitOf(c);
        if value > U128_MAX {
          return Err(TooHigh);
        }
      }
    }
    assert body[..|body|] == body;
    value := Scale(value, if decimals.Some? then decimals.value else places);
    if value > U128_MAX {
      return Err(TooHigh);
    }
    return Ok(value);
  }

  /** Reads any text, without the space around it and a plus sign. */
  method FromStr(src: string) returns (result: Result<nat, ParseAmountError>)
    ensures result == ParseAll(Body(src), DECIMAL_PLACES)
    ensures result.Ok? ==> Represents(Split(Body(src)), DECIMAL_PLACES, result.value)
    ensures result.Err? ==> forall amount :: !Represents(Split(Body(src)), DECIMAL_PLACES, amount)
  {
    result := ParseBody(Body(src), DECIMAL_PLACES);
    ParseAllIff(Body(src), DECIMAL_PLACES);
  }
}
