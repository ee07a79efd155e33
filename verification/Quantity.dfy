/** A size written as a Kubernetes quantity, read exactly: a decimal number, then a binary or decimal
    suffix or a decimal exponent. */
module Quantities {
  datatype Option<+T> = None | Some(value: T)

  datatype Sign = Unsigned | Plus | Minus

  datatype Tail = NoTail | Suffix(text: string) | Exponent(upper: bool, sign: Sign, digits: string)

  /** One reading of a quantity, down to how it was written. */
  datatype Quantity = Quantity(sign: Sign, whole: string, dot: bool, fraction: string, tail: Tail)

  const MAX_BYTES: int := 0x7FFF_FFFF_FFFF_FFFF

  /** The most decimal digits Python's `int()` converts, unless its limit is changed. */
  const INT_DIGITS: nat := 4300

  const SUFFIXES: set<string> := {"Ki", "Mi", "Gi", "Ti", "Pi", "Ei", "n", "u", "m", "k", "M", "G", "T", "P", "E"}

  // -- the grammar -----------------------------------------------------------------------------------

  predicate IsDigit(c: char) { '0' <= c <= '9' }

  predicate AllDigits(s: string) { forall i :: 0 <= i < |s| ==> IsDigit(s[i]) }

  /** A well-formed reading. */
  predicate IsQuantity(q: Quantity) {
    && AllDigits(q.whole) && AllDigits(q.fraction)
    && (if q.whole != [] then q.dot || q.fraction == [] else q.dot && q.fraction != [])
    && (q.tail.Suffix? ==> q.tail.text in SUFFIXES)
    && (q.tail.Exponent? ==> q.tail.digits != [] && AllDigits(q.tail.digits))
  }

  function SignText(s: Sign): string {
    match s case Unsigned => "" case Plus => "+" case Minus => "-"
  }

  function NumberText(q: Quantity): string {
    SignText(q.sign) + q.whole + (if q.dot then "." else "") + q.fraction
  }

  function TailText(t: Tail): string {
    match t
    case NoTail => ""
    case Suffix(text) => text
    case Exponent(upper, sign, digits) => (if upper then "E" else "e") + SignText(sign) + digits
  }

  function Text(q: Quantity): string {
    NumberText(q) + TailText(q.tail)
  }

  // -- what a reading is worth -----------------------------------------------------------------------

  function Power(base: nat, k: nat): nat {
    if k == 0 then 1 else base * Power(base, k - 1)
  }

  function Number(digits: string): nat
    requires AllDigits(digits)
  {
    if digits == [] then 0
    else 10 * Number(digits[..|digits| - 1]) + (digits[|digits| - 1] as int - '0' as int)
  }

  function Signed(sign: Sign, n: nat): int {
    var m: int := n;
    if sign == Minus then -m else m
  }

  /** An exact rational: `over / under`. */
  datatype Ratio = Ratio(over: int, under: int)

  function Factor(t: Tail): Ratio
    requires t.Suffix? ==> t.text in SUFFIXES
    requires t.Exponent? ==> AllDigits(t.digits)
  {
    match t
    case NoTail => Ratio(1, 1)
    case Suffix(s) =>
      if s == "Ki" then Ratio(Power(2, 10), 1) else if s == "Mi" then Ratio(Power(2, 20), 1)
      else if s == "Gi" then Ratio(Power(2, 30), 1) else if s == "Ti" then Ratio(Power(2, 40), 1)
      else if s == "Pi" then Ratio(Power(2, 50), 1) else if s == "Ei" then Ratio(Power(2, 60), 1)
      else if s == "k" then Ratio(Power(10, 3), 1) else if s == "M" then Ratio(Power(10, 6), 1)
      else if s == "G" then Ratio(Power(10, 9), 1) else if s == "T" then Ratio(Power(10, 12), 1)
      else if s == "P" then Ratio(Power(10, 15), 1) else if s == "E" then Ratio(Power(10, 18), 1)
      else if s == "m" then Ratio(1, Power(10, 3)) else if s == "u" then Ratio(1, Power(10, 6))
      else Ratio(1, Power(10, 9))
    case Exponent(_, sign, digits) =>
      if sign == Minus then Ratio(1, Power(10, Number(digits))) else Ratio(Power(10, Number(digits)), 1)
  }

  /** The digits of the number as one integer, with its sign: the number times ten to the length of its fraction. */
  function Mantissa(q: Quantity): int
    requires IsQuantity(q)
  {
    Signed(q.sign, Number(q.whole + q.fraction))
  }

  function Worth(q: Quantity): Ratio
    requires IsQuantity(q)
  {
    var f := Factor(q.tail);
    Ratio(Mantissa(q) * f.over, Power(10, |q.fraction|) * f.under)
  }

  /** A size, one of the two refusals, or the refusal of Python's `int()` to convert that many digits. */
  datatype Verdict = Size(bytes: int) | Wrong | TooLarge | TooManyDigits

  /** A size must be a whole number of bytes, at least 1 and at most `MAX_BYTES`. */
  function Judge(r: Ratio): Verdict
    requires r.under > 0
  {
    if r.over % r.under != 0 || r.over < r.under then Wrong
    else if r.over / r.under > MAX_BYTES then TooLarge
    else Size(r.over / r.under)
  }

  lemma {:induction false} PowerPositive(base: nat, k: nat)
    requires base >= 1
    ensures Power(base, k) >= 1
  {
    if k > 0 {
      PowerPositive(base, k - 1);
      AtLeast(base, Power(base, k - 1));
    }
  }

  lemma AtLeast(a: int, b: int)
    requires a >= 1 && b >= 1
    ensures a * b >= a && a * b >= b
  {
  }

  lemma UnderPositive(q: Quantity)
    requires IsQuantity(q)
    ensures Worth(q).under > 0
  {
    PowerPositive(10, |q.fraction|);
    if q.tail.Exponent? { PowerPositive(10, Number(q.tail.digits)); }
    PowerPositive(10, 3);
    PowerPositive(10, 6);
    PowerPositive(10, 9);
    AtLeast(Power(10, |q.fraction|), Factor(q.tail).under);
  }

  /** What a string is worth under the grammar, evaluated exactly. */
  ghost predicate MeansExactly(s: string, v: Verdict) {
    if exists q :: IsQuantity(q) && Text(q) == s then
      exists q :: IsQuantity(q) && Text(q) == s && Worth(q).under > 0 && v == Judge(Worth(q))
    else v == Wrong
  }

  // -- reading ---------------------------------------------------------------------------------------

  /** How many digits a string starts with. */
  function Leading(s: string): (n: nat)
    ensures n <= |s| && AllDigits(s[..n]) && (n < |s| ==> !IsDigit(s[n]))
  {
    if s == [] || !IsDigit(s[0]) then 0 else 1 + Leading(s[1..])
  }

  function ReadSign(s: string): (r: (Sign, string))
    ensures SignText(r.0) + r.1 == s
  {
    if s != [] && s[0] == '+' then (Plus, s[1..])
    else if s != [] && s[0] == '-' then (Minus, s[1..])
    else (Unsigned, s)
  }

  function ReadTail(s: string): Option<Tail> {
    if s == [] then Some(NoTail)
    else if s in SUFFIXES then Some(Suffix(s))
    else if s[0] == 'e' || s[0] == 'E' then
      var (sign, digits) := ReadSign(s[1..]);
      if digits != [] && Leading(digits) == |digits| then Some(Exponent(s[0] == 'E', sign, digits)) else None
    else None
  }

  function Read(s: string): Option<Quantity> {
    var (sign, number) := ReadSign(s);
    var n := Leading(number);
    var whole, rest := number[..n], number[n..];
    var dot := rest != [] && rest[0] == '.';
    var after := if dot then rest[1..] else rest;
    var m := if dot then Leading(after) else 0;
    var tail := ReadTail(after[m..]);
    if (whole == [] && m == 0) || tail.None? then None
    else Some(Quantity(sign, whole, dot, after[..m], tail.value))
  }

  // -- each string has at most one reading -------------------------------------------------------------

  lemma {:induction false} LeadingOf(digits: string, rest: string)
    requires AllDigits(digits) && (rest != [] ==> !IsDigit(rest[0]))
    ensures Leading(digits + rest) == |digits|
  {
    if digits == [] {
      assert digits + rest == rest;
    } else {
      LeadingOf(digits[1..], rest);
      assert (digits + rest)[1..] == digits[1..] + rest;
    }
  }

  lemma ReadSignOf(sign: Sign, rest: string)
    requires rest != [] && rest[0] != '+' && rest[0] != '-'
    ensures ReadSign(SignText(sign) + rest) == (sign, rest)
  {
    match sign
    case Unsigned => assert SignText(sign) + rest == rest;
    case Plus => assert (SignText(sign) + rest)[1..] == rest;
    case Minus => assert (SignText(sign) + rest)[1..] == rest;
  }

  /** A suffix is not an exponent: it has no digit in it. */
  lemma SuffixHasNoDigit(s: string)
    requires s in SUFFIXES
    ensures s != [] && !IsDigit(s[0]) && s[0] != '.' && !IsDigit(s[|s| - 1])
  {
  }

  lemma ReadTailOf(t: Tail)
    requires t.Suffix? ==> t.text in SUFFIXES
    requires t.Exponent? ==> t.digits != [] && AllDigits(t.digits)
    ensures ReadTail(TailText(t)) == Some(t)
    ensures TailText(t) != [] ==> !IsDigit(TailText(t)[0]) && TailText(t)[0] != '.'
  {
    match t
    case NoTail =>
    case Suffix(text) => SuffixHasNoDigit(text);
    case Exponent(upper, sign, digits) =>
      var s := TailText(t);
      assert s[1..] == SignText(sign) + digits;
      assert s[|s| - 1] == digits[|digits| - 1];
      if s in SUFFIXES { SuffixHasNoDigit(s); }
      ReadSignOf(sign, digits);
      LeadingOf(digits, []);
      assert digits + [] == digits;
  }

  /** Reading a written quantity gives it back. */
  lemma ReadsWhatIsWritten(q: Quantity)
    requires IsQuantity(q)
    ensures Read(Text(q)) == Some(q)
  {
    hide SUFFIXES, ReadTail, TailText;
    ReadTailOf(q.tail);
    var tail := TailText(q.tail);
    var after := q.fraction + tail;
    var rest := (if q.dot then "." else "") + after;
    var number := q.whole + rest;
    assert Text(q) == SignText(q.sign) + number;
    NumberStarts(q, number);
    ReadSignOf(q.sign, number);
    LeadingOf(q.fraction, tail);
    assert !q.dot ==> after == tail;
    LeadingOf(q.whole, rest);
    assert number[..|q.whole|] == q.whole && number[|q.whole|..] == rest;
    assert after[..|q.fraction|] == q.fraction && after[|q.fraction|..] == tail;
    assert q.dot ==> rest[1..] == after;
  }

  lemma NumberStarts(q: Quantity, number: string)
    requires IsQuantity(q) && number == q.whole + ((if q.dot then "." else "") + (q.fraction + TailText(q.tail)))
    ensures number != [] && number[0] != '+' && number[0] != '-'
  {
    hide TailText;
    if q.whole != [] {
      assert number[0] == q.whole[0];
    }
  }

  /** A string that is read is written exactly as it was. */
  lemma WritesWhatIsRead(s: string)
    requires Read(s).Some?
    ensures IsQuantity(Read(s).value) && Text(Read(s).value) == s
  {
    hide SUFFIXES, ReadTail, TailText, ReadSign, SignText;
    var (sign, number) := ReadSign(s);
    var n := Leading(number);
    var whole, rest := number[..n], number[n..];
    var dot := rest != [] && rest[0] == '.';
    var after := if dot then rest[1..] else rest;
    var m := if dot then Leading(after) else 0;
    TailRead(after[m..]);
    Reassembles(SignText(sign), number, n, after, m);
  }

  lemma Reassembles(sign: string, number: string, n: nat, after: string, m: nat)
    requires n <= |number| && m <= |after|
    requires var rest := number[n..]; after == if rest != [] && rest[0] == '.' then rest[1..] else rest
    ensures var dot := number[n..] != [] && number[n..][0] == '.';
            sign + number[..n] + (if dot then "." else "") + after[..m] + after[m..] == sign + number
  {
    var rest := number[n..];
    var dot := rest != [] && rest[0] == '.';
    var point := if dot then "." else "";
    assert rest == point + after;
    assert after == after[..m] + after[m..];
    assert number == number[..n] + rest;
    FiveParts(sign, number[..n], point, after[..m], after[m..]);
  }

  lemma FiveParts(a: string, b: string, c: string, d: string, e: string)
    ensures a + b + c + d + e == a + (b + (c + (d + e)))
  {
    assert a + b + c + d + e == a + b + c + (d + e);
    assert a + b + c + (d + e) == a + b + (c + (d + e));
    assert a + b + (c + (d + e)) == a + (b + (c + (d + e)));
  }

  lemma TailRead(s: string)
    requires ReadTail(s).Some?
    ensures var t := ReadTail(s).value;
            && TailText(t) == s
            && (t.Suffix? ==> t.text in SUFFIXES)
            && (t.Exponent? ==> t.digits != [] && AllDigits(t.digits))
  {
    if s != [] && s !in SUFFIXES {
      var (sign, digits) := ReadSign(s[1..]);
      assert digits[..Leading(digits)] == digits;
      assert s == [s[0]] + s[1..];
    }
  }

  /** Every string has at most one reading, and it is the one that is read. */
  lemma OneReading(s: string, q: Quantity)
    requires IsQuantity(q) && Text(q) == s
    ensures Read(s) == Some(q)
  {
    ReadsWhatIsWritten(q);
  }

  // -- the two shortcuts -------------------------------------------------------------------------------

  lemma {:induction false} PowerAdds(base: nat, a: nat, b: nat)
    ensures Power(base, a + b) == Power(base, a) * Power(base, b)
  {
    if a > 0 {
      PowerAdds(base, a - 1, b);
      Associates(base, Power(base, a - 1), Power(base, b));
    }
  }

  lemma Associates(a: int, b: int, c: int)
    ensures a * (b * c) == (a * b) * c
  {
  }

  lemma PowerMonotone(base: nat, a: nat, b: nat)
    requires base >= 1 && a <= b
    ensures Power(base, a) <= Power(base, b)
  {
    PowerAdds(base, a, b - a);
    PowerPositive(base, b - a);
    PowerPositive(base, a);
    AtLeast(Power(base, a), Power(base, b - a));
  }

  /** A number written in `n` digits is below ten to the `n`. */
  lemma {:induction false} NumberBelow(digits: string)
    requires AllDigits(digits)
    ensures Number(digits) < Power(10, |digits|)
  {
    if digits != [] {
      NumberBelow(digits[..|digits| - 1]);
    }
  }

  /** Below the first exponent, a quantity is below one byte. */
  lemma FarBelow(q: Quantity)
    requires IsQuantity(q) && q.tail.Exponent? && q.tail.sign == Minus && Number(q.tail.digits) > |NumberText(q)|
    ensures Worth(q).under > 0 && Judge(Worth(q)) == Wrong
  {
    UnderPositive(q);
    var k, n := Number(q.tail.digits), |q.whole + q.fraction|;
    NumberBelow(q.whole + q.fraction);
    PowerMonotone(10, n, k);
    PowerPositive(10, |q.fraction|);
    PowerPositive(10, k);
    AtLeast(Power(10, |q.fraction|), Power(10, k));
    hide Power, Number;
    FactorDown(q.tail);
    BelowOne(Worth(q), Power(10, n));
  }

  lemma FactorDown(t: Tail)
    requires t.Exponent? && AllDigits(t.digits) && t.sign == Minus
    ensures Factor(t) == Ratio(1, Power(10, Number(t.digits)))
  {
  }

  lemma BelowOne(r: Ratio, bound: int)
    requires r.under > 0 && r.over < bound <= r.under
    ensures Judge(r) == Wrong
  {
  }

  lemma Divides(a: int, b: int)
    requires b > 0
    ensures (a * b) % b == 0 && (a * b) / b == a
  {
    var q, r := (a * b) / b, (a * b) % b;
    assert a * b == b * q + r;
    OneQuotient(a, q, b, r);
  }

  lemma OneQuotient(a: int, q: int, b: int, r: int)
    requires 0 <= r < b && a * b == b * q + r
    ensures a == q && r == 0
  {
    assert (a - q) * b == r;
    if a > q {
      AtLeast(a - q, b);
    } else if a < q {
      AtLeast(q - a, b);
    }
  }

  lemma TwentyDigits()
    ensures Power(10, 20) > MAX_BYTES
  {
    PowerAdds(10, 10, 10);
    assert Power(10, 10) == 10000000000;
  }

  /** Above the second one it is above the limit, if it is positive. */
  lemma FarAbove(q: Quantity)
    requires IsQuantity(q) && q.tail.Exponent? && q.tail.sign != Minus && Number(q.tail.digits) > |NumberText(q)| + 19
    ensures Worth(q).under > 0
    ensures Judge(Worth(q)) == if Mantissa(q) > 0 then TooLarge else Wrong
  {
    UnderPositive(q);
    var k, f, n := Number(q.tail.digits), |q.fraction|, Mantissa(q);
    hide Number, Factor;
    assert Worth(q) == Ratio(n * Power(10, k), Power(10, f) * 1) by { FactorUp(q.tail); }
    PowerPositive(10, f);
    PowerPositive(10, k);
    if n > 0 {
      HighExponent(n, k, f);
    } else {
      NotPositive(n, Power(10, k));
    }
  }

  lemma HighExponent(n: int, k: nat, f: nat)
    requires n > 0 && k >= f + 20 && Power(10, f) >= 1
    ensures Judge(Ratio(n * Power(10, k), Power(10, f) * 1)) == TooLarge
  {
    PowerMonotone(10, 20, k - f);
    TwentyDigits();
    PowerAdds(10, f, k - f);
    hide Power;
    var a, b := Power(10, f), Power(10, k - f);
    Rearranges(n, a, b);
    AtLeast(n, b);
    WholeAbove(n * b, a);
  }

  lemma WholeAbove(times: int, under: int)
    requires under >= 1 && times > MAX_BYTES
    ensures Judge(Ratio(times * under, under * 1)) == TooLarge
  {
    Divides(times, under);
    AtLeast(times, under);
  }

  lemma FactorUp(t: Tail)
    requires t.Exponent? && AllDigits(t.digits) && t.sign != Minus
    ensures Factor(t) == Ratio(Power(10, Number(t.digits)), 1)
  {
  }

  lemma Rearranges(n: int, a: int, b: int)
    ensures n * (a * b) == (n * b) * a
  {
  }

  lemma NotPositive(n: int, p: int)
    requires n <= 0 && p >= 1
    ensures n * p <= 0
  {
  }

  // -- the reader --------------------------------------------------------------------------------------

  /** A value of the manifest: a YAML integer, a string, a float, or anything else. */
  datatype Value = Whole(n: int) | Written(s: string) | Float | Other

  /** Read a size. An exponent that settles the answer by itself is never computed. */
  function ByteQuantity(v: Value): Verdict {
    match v
    case Float => Wrong
    case Other => Wrong
    case Whole(n) => Judge(Ratio(n, 1))
    case Written(s) =>
      if Read(s).None? then Wrong
      else
        WritesWhatIsRead(s);
        var q := Read(s).value;
        UnderPositive(q);
        if q.tail.Exponent? && |q.tail.digits| > INT_DIGITS then TooManyDigits
        else if q.tail.Exponent? then
          var exponent := Signed(q.tail.sign, Number(q.tail.digits));
          var digits := |NumberText(q)|;
          if exponent < -digits then Wrong
          else if exponent > digits + 19 then if Mantissa(q) > 0 then TooLarge else Wrong
          else Judge(Worth(q))
        else Judge(Worth(q))
  }

  /** Whether a string is a quantity whose exponent has more digits than `int()` converts. */
  predicate HasLongExponent(s: string) {
    Read(s).Some? && Read(s).value.tail.Exponent? && |Read(s).value.tail.digits| > INT_DIGITS
  }

  /** For every string, what is read is what exact evaluation of the grammar gives, exactly if its
      exponent is not too long to be converted; such a string is refused, whatever it is worth. */
  lemma ReadsExactly(s: string)
    ensures MeansExactly(s, ByteQuantity(Written(s))) <==> !HasLongExponent(s)
    ensures HasLongExponent(s) <==> ByteQuantity(Written(s)) == TooManyDigits
  {
    if !HasLongExponent(s) {
      ReadsShortExactly(s);
    }
    hide SUFFIXES, Read, Worth, Text, IsQuantity, Number, NumberText;
  }

  lemma ReadsShortExactly(s: string)
    requires !HasLongExponent(s)
    ensures MeansExactly(s, ByteQuantity(Written(s))) && ByteQuantity(Written(s)) != TooManyDigits
  {
    hide SUFFIXES, Read, Worth, Judge, Text, IsQuantity, Number, NumberText;
    if Read(s).Some? {
      WritesWhatIsRead(s);
      var q := Read(s).value;
      UnderPositive(q);
      ShortcutsAgree(s, q);
    } else if q :| IsQuantity(q) && Text(q) == s {
      OneReading(s, q);
    }
  }

  lemma ShortcutsAgree(s: string, q: Quantity)
    requires Read(s) == Some(q) && IsQuantity(q) && Worth(q).under > 0 && !HasLongExponent(s)
    ensures ByteQuantity(Written(s)) == Judge(Worth(q)) != TooManyDigits
  {
    hide Read, Worth, Number, NumberText;
    if q.tail.Exponent? {
      var exponent := Signed(q.tail.sign, Number(q.tail.digits));
      if exponent < -|NumberText(q)| {
        FarBelow(q);
      } else if exponent > |NumberText(q)| + 19 {
        FarAbove(q);
      }
    }
  }

  lemma {:induction false} LeadingZeros(zeros: string, digit: char)
    requires IsDigit(digit) && forall i :: 0 <= i < |zeros| ==> zeros[i] == '0'
    ensures AllDigits(zeros + [digit]) && Number(zeros + [digit]) == digit as int - '0' as int
  {
    assert (zeros + [digit])[..|zeros|] == zeros;
    if zeros != [] {
      var fewer := zeros[..|zeros| - 1];
      LeadingZeros(fewer, '0');
      assert zeros == fewer + ['0'];
    }
  }

  /** A string worth a million bytes that is refused: its exponent is a 6 behind 4300 zeros. */
  lemma LongExponentRefused()
    ensures exists s :: HasLongExponent(s) && MeansExactly(s, Size(1_000_000))
  {
    hide Text, Read, Worth, IsQuantity, AllDigits, Number;
    var zeros := seq(INT_DIGITS, i => '0');
    var q := Million(zeros);
    MillionWorth(zeros);
    ReadsWhatIsWritten(q);
    JudgeMillion();
    assert HasLongExponent(Text(q)) && MeansExactly(Text(q), Size(1_000_000));
  }

  function Million(zeros: string): Quantity {
    Quantity(Unsigned, "1", false, "", Exponent(false, Unsigned, zeros + ['6']))
  }

  lemma MillionWorth(zeros: string)
    requires forall i :: 0 <= i < |zeros| ==> zeros[i] == '0'
    ensures IsQuantity(Million(zeros)) && Worth(Million(zeros)) == Ratio(1_000_000, 1)
  {
    hide Number, Power;
    LeadingZeros(zeros, '6');
    LeadingZeros([], '1');
    assert "1" == [] + ['1'] && "1" + "" == "1";
    Powers();
  }

  lemma Powers()
    ensures Power(10, 0) == 1 && Power(10, 6) == 1_000_000
  {
    PowerAdds(10, 3, 3);
    assert Power(10, 3) == 1000;
  }

  lemma JudgeMillion()
    ensures Judge(Ratio(1_000_000, 1)) == Size(1_000_000)
  {
  }

  /** An accepted size is from 1 to `MAX_BYTES`, and a YAML integer is accepted as itself. */
  lemma SizesInRange(v: Value)
    ensures ByteQuantity(v).Size? ==> 1 <= ByteQuantity(v).bytes <= MAX_BYTES
    ensures v.Whole? ==> (ByteQuantity(v) == Size(v.n) <==> 1 <= v.n <= MAX_BYTES)
  {
    hide Read, Worth, Number, NumberText;
    if v.Written? && Read(v.s).Some? {
      WritesWhatIsRead(v.s);
      UnderPositive(Read(v.s).value);
      JudgeInRange(Worth(Read(v.s).value));
    }
  }

  lemma JudgeInRange(r: Ratio)
    requires r.under > 0
    ensures Judge(r).Size? ==> 1 <= Judge(r).bytes <= MAX_BYTES && Judge(r).bytes * r.under == r.over
  {
  }

  // -- what the suffixes stand for -----------------------------------------------------------------------

  lemma PowersOfTwo()
    ensures Power(2, 10) == 1024 && Power(2, 20) == 1_048_576 && Power(2, 30) == 1_073_741_824
    ensures Power(2, 40) == 1_099_511_627_776 && Power(2, 50) == 1_125_899_906_842_624
    ensures Power(2, 60) == 1_152_921_504_606_846_976
  {
    assert Power(2, 5) == 32;
    PowerAdds(2, 5, 5);
    PowerAdds(2, 10, 10);
    PowerAdds(2, 10, 20);
    PowerAdds(2, 10, 30);
    PowerAdds(2, 10, 40);
    PowerAdds(2, 10, 50);
  }

  lemma PowersOfTen()
    ensures Power(10, 3) == 1_000 && Power(10, 6) == 1_000_000 && Power(10, 9) == 1_000_000_000
    ensures Power(10, 12) == 1_000_000_000_000 && Power(10, 15) == 1_000_000_000_000_000
    ensures Power(10, 18) == 1_000_000_000_000_000_000
  {
    PowerAdds(10, 3, 3);
    PowerAdds(10, 3, 6);
    PowerAdds(10, 3, 9);
    PowerAdds(10, 3, 12);
    PowerAdds(10, 3, 15);
  }

  /** A binary suffix is a power of 1024. */
  lemma BinarySuffixesMean()
    ensures Factor(Suffix("Ki")) == Ratio(1024, 1) && Factor(Suffix("Mi")) == Ratio(1_048_576, 1)
    ensures Factor(Suffix("Gi")) == Ratio(1_073_741_824, 1) && Factor(Suffix("Ti")) == Ratio(1_099_511_627_776, 1)
    ensures Factor(Suffix("Pi")) == Ratio(1_125_899_906_842_624, 1)
    ensures Factor(Suffix("Ei")) == Ratio(1_152_921_504_606_846_976, 1)
  {
    hide Power;
    PowersOfTwo();
  }

  /** A decimal suffix is a power of a thousand, or of a thousandth. */
  lemma DecimalSuffixesMean()
    ensures Factor(Suffix("k")) == Ratio(1_000, 1) && Factor(Suffix("M")) == Ratio(1_000_000, 1)
    ensures Factor(Suffix("G")) == Ratio(1_000_000_000, 1) && Factor(Suffix("T")) == Ratio(1_000_000_000_000, 1)
    ensures Factor(Suffix("P")) == Ratio(1_000_000_000_000_000, 1)
    ensures Factor(Suffix("E")) == Ratio(1_000_000_000_000_000_000, 1)
    ensures Factor(Suffix("m")) == Ratio(1, 1_000) && Factor(Suffix("u")) == Ratio(1, 1_000_000)
    ensures Factor(Suffix("n")) == Ratio(1, 1_000_000_000)
  {
    hide Power;
    PowersOfTen();
  }

  /** A whole number with a suffix is that many times what the suffix stands for, if that is a whole
      number of bytes in range. */
  lemma WholeNumberWithSuffix(digits: string, suffix: string)
    requires digits != [] && AllDigits(digits) && suffix in SUFFIXES
    ensures var unit := Factor(Suffix(suffix));
            && unit.under > 0
            && var total := Number(digits) * unit.over;
               ByteQuantity(Written(digits + suffix)) ==
                 if total < unit.under || total % unit.under != 0 then Wrong
                 else if total / unit.under > MAX_BYTES then TooLarge
                 else Size(total / unit.under)
  {
    hide SUFFIXES, Factor, Number, Text, Worth, Read, Judge, IsQuantity;
    var q := Suffixed(digits, suffix);
    SuffixedText(digits, suffix);
    SuffixedWorth(digits, suffix);
    OneReading(digits + suffix, q);
    UnderPositive(q);
    ReadsSuffixed(digits + suffix, q);
    JudgesProduct(Number(digits) * Factor(Suffix(suffix)).over, Factor(Suffix(suffix)).under);
  }

  function Suffixed(digits: string, suffix: string): Quantity {
    Quantity(Unsigned, digits, false, "", Suffix(suffix))
  }

  lemma SuffixedText(digits: string, suffix: string)
    requires digits != [] && AllDigits(digits) && suffix in SUFFIXES
    ensures IsQuantity(Suffixed(digits, suffix)) && Text(Suffixed(digits, suffix)) == digits + suffix
  {
    hide SUFFIXES;
  }

  lemma SuffixedWorth(digits: string, suffix: string)
    requires IsQuantity(Suffixed(digits, suffix))
    ensures AllDigits(digits) && suffix in SUFFIXES
    ensures Worth(Suffixed(digits, suffix)) ==
            Ratio(Number(digits) * Factor(Suffix(suffix)).over, Factor(Suffix(suffix)).under)
  {
    assert digits + "" == digits;
    assert Power(10, 0) == 1;
    hide SUFFIXES, Factor, Number, Power;
  }

  lemma ReadsSuffixed(s: string, q: Quantity)
    requires Read(s) == Some(q) && IsQuantity(q) && q.tail.Suffix? && Worth(q).under > 0
    ensures ByteQuantity(Written(s)) == Judge(Worth(q))
  {
    hide SUFFIXES, Read, Worth, Judge, Number, NumberText, Text, IsQuantity;
  }

  lemma JudgesProduct(total: int, under: int)
    requires under > 0
    ensures Judge(Ratio(total, under)) ==
              if total < under || total % under != 0 then Wrong
              else if total / under > MAX_BYTES then TooLarge
              else Size(total / under)
  {
  }

  lemma NumberOfTwo(a: char, b: char)
    requires IsDigit(a) && IsDigit(b)
    ensures Number([a]) == a as int - '0' as int
    ensures Number([a, b]) == 10 * (a as int - '0' as int) + (b as int - '0' as int)
  {
    assert [a][..0] == [];
    assert Number([a]) == a as int - '0' as int;
    assert [a, b][..1] == [a];
  }

  /** 1.5Mi. */
  function OneAndAHalf(): Quantity { Quantity(Unsigned, "1", true, "5", Suffix("Mi")) }

  lemma OneAndAHalfWritten()
    ensures Text(OneAndAHalf()) == "1.5Mi" && IsQuantity(OneAndAHalf())
  {
  }

  lemma OneAndAHalfWorth()
    requires IsQuantity(OneAndAHalf())
    ensures Worth(OneAndAHalf()) == Ratio(15 * 1_048_576, 10)
  {
    NumberOfTwo('1', '5');
    assert "1" + "5" == ['1', '5'];
    assert Power(10, 1) == 10;
    hide Number, Power, Text, SUFFIXES, Factor;
    BinarySuffixesMean();
  }

  lemma FractionExample()
    ensures ByteQuantity(Written("1.5Mi")) == Size(1_572_864)
  {
    hide Text, Worth, IsQuantity, Read;
    OneAndAHalfWritten();
    OneAndAHalfWorth();
    OneReading("1.5Mi", OneAndAHalf());
  }

  lemma ExponentExample()
    ensures ByteQuantity(Written("1e6")) == Size(1_000_000)
  {
    var q := Million([]);
    assert [] + ['6'] == ['6'] && Text(q) == "1e6" && NumberText(q) == "1";
    NumberOfTwo('6', '0');
    MillionWorth([]);
    JudgeMillion();
    hide Number, Worth, Judge, Text, NumberText;
    OneReading("1e6", q);
  }

  /** -1Mi. */
  function MinusOne(): Quantity { Quantity(Minus, "1", false, "", Suffix("Mi")) }

  lemma MinusOneWritten()
    ensures Text(MinusOne()) == "-1Mi" && IsQuantity(MinusOne())
  {
  }

  lemma MinusOneWorth()
    requires IsQuantity(MinusOne())
    ensures Worth(MinusOne()) == Ratio(-1_048_576, 1)
  {
    NumberOfTwo('1', '0');
    assert "1" + "" == ['1'];
    assert Power(10, 0) == 1;
    hide Number, Power, Text, SUFFIXES, Factor;
    BinarySuffixesMean();
  }

  lemma NegativeExample()
    ensures ByteQuantity(Written("-1Mi")) == Wrong
  {
    hide Text, Worth, IsQuantity, Read;
    MinusOneWritten();
    MinusOneWorth();
    OneReading("-1Mi", MinusOne());
  }

  lemma BinaryExample()
    ensures ByteQuantity(Written("24Mi")) == Size(25_165_824)
  {
    hide Read, Factor, ByteQuantity;
    assert Number("24") == 24 by {
      NumberOfTwo('2', '4');
      assert "24" == ['2', '4'];
    }
    assert "24" + "Mi" == "24Mi" && "Mi" in SUFFIXES && AllDigits("24");
    hide Number, SUFFIXES, AllDigits;
    BinarySuffixesMean();
    WholeNumberWithSuffix("24", "Mi");
  }

  lemma DecimalExample()
    ensures ByteQuantity(Written("1G")) == Size(1_000_000_000)
  {
    hide Read, Factor, ByteQuantity;
    assert Number("1") == 1 by {
      NumberOfTwo('1', '0');
      assert "1" == ['1'];
    }
    assert "1" + "G" == "1G" && "G" in SUFFIXES && AllDigits("1");
    hide Number, SUFFIXES, AllDigits;
    DecimalSuffixesMean();
    WholeNumberWithSuffix("1", "G");
  }

  lemma SmallExample()
    ensures ByteQuantity(Written("100m")) == Wrong
  {
    NumberOfTwo('1', '0');
    assert "100"[..2] == ['1', '0'] && Number("100") == 100;
    assert "100" + "m" == "100m" && "m" in SUFFIXES;
    hide Number, Read, Factor, SUFFIXES, ByteQuantity;
    DecimalSuffixesMean();
    WholeNumberWithSuffix("100", "m");
  }

  /** The sizes the documentation gives as examples, and some that it says are none. */
  lemma DocumentedExamples()
    ensures ByteQuantity(Written("24Mi")) == Size(25_165_824)
    ensures ByteQuantity(Written("1.5Mi")) == Size(1_572_864)
    ensures ByteQuantity(Written("1e6")) == Size(1_000_000)
    ensures ByteQuantity(Written("1G")) == Size(1_000_000_000)
    ensures ByteQuantity(Whole(1_048_576)) == Size(1_048_576)
    ensures ByteQuantity(Written("-1Mi")) == ByteQuantity(Written("100m")) == Wrong
    ensures ByteQuantity(Whole(0)) == ByteQuantity(Float) == Wrong
    ensures ByteQuantity(Whole(9_223_372_036_854_775_807)) == Size(9_223_372_036_854_775_807)
    ensures ByteQuantity(Whole(9_223_372_036_854_775_808)) == TooLarge
  {
    hide Read;
    FractionExample();
    ExponentExample();
    NegativeExample();
    BinaryExample();
    DecimalExample();
    SmallExample();
  }
}
