/**
 `duration_as_human_string` and a reader for what it prints.  The reader shows what the string still
 says about the duration: everything below a minute, whole seconds below an hour, whole minutes above.
 The comment on the original promises shorter strings than it prints; this follows the code.
 */
module Duration {
  // ---- Decimal numbers, as `{}` and `{:03}` print them ----

  function Digit(d: nat): char
    requires d < 10
  {
    "0123456789"[d]
  }

  predicate IsDigit(c: char) {
    '0' <= c <= '9'
  }

  function Decimal(n: nat): (s: string)
    ensures s != [] && forall c :: c in s ==> IsDigit(c)
  {
    if n < 10 then [Digit(n)] else Decimal(n / 10) + [Digit(n % 10)]
  }

  function Padded3(n: nat): string
    requires n < 1000
  {
    [Digit(n / 100), Digit(n / 10 % 10), Digit(n % 10)]
  }

  function Value(c: char): (d: nat)
    requires IsDigit(c)
    ensures d < 10 && Digit(d) == c
  {
    c as int - '0' as int
  }

  function Number(s: string): nat
    requires forall c :: c in s ==> IsDigit(c)
  {
    if s == [] then 0
    else Number(s[..|s| - 1]) * 10 + Value(s[|s| - 1])
  }

  lemma {:induction false} NumberOfDecimal(n: nat)
    ensures Number(Decimal(n)) == n
  {
    var s := Decimal(n);
    if n < 10 {
      assert s[..|s| - 1] == [];
      assert Number([]) == 0;
    } else {
      assert s[..|s| - 1] == Decimal(n / 10);
      NumberOfDecimal(n / 10);
    }
  }

  // ---- Rendering ----

  function Human(ms: nat): string {
    var sec := ms / 1000;
    var min := sec / 60;
    var hours := min / 60;
    if hours != 0 then
      Decimal(hours) + "h" + (if min % 60 != 0 then Decimal(min % 60) + "m" else "")
    else if min % 60 != 0 then
      Decimal(min % 60) + "m" + (if min % 60 != 0 then Decimal(sec % 60) + "s" else "")
    else
      Decimal(sec % 60) + (if ms % 1000 != 0 then "." + Padded3(ms % 1000) else "") + "s"
  }

  // ---- Reading ----

  /** The leading digits of a string. */
  function DigitsOf(s: string): (d: string)
    ensures d <= s && (forall c :: c in d ==> IsDigit(c)) && (|d| < |s| ==> !IsDigit(s[|d|]))
  {
    if s == [] || !IsDigit(s[0]) then [] else [s[0]] + DigitsOf(s[1..])
  }

  /** Digits after a point, each worth a tenth of the one before, down to thousandths. */
  function Thousandths(d: string): nat
    requires forall c :: c in d ==> IsDigit(c)
  {
    (if |d| > 0 then Value(d[0]) * 100 else 0) + (if |d| > 1 then Value(d[1]) * 10 else 0) + (if |d| > 2 then Value(d[2]) else 0)
  }

  lemma ValueOfDigit(d: nat)
    requires d < 10
    ensures IsDigit(Digit(d)) && Value(Digit(d)) == d
  {
  }

  lemma ThousandthsOfThree(a: nat, b: nat, c: nat)
    requires a < 10 && b < 10 && c < 10
    ensures forall x :: x in [Digit(a), Digit(b), Digit(c)] ==> IsDigit(x)
    ensures Thousandths([Digit(a), Digit(b), Digit(c)]) == a * 100 + b * 10 + c
  {
    ValueOfDigit(a);
    ValueOfDigit(b);
    ValueOfDigit(c);
  }

  lemma ThreeDigits(n: nat)
    ensures n == n / 100 * 100 + n / 10 % 10 * 10 + n % 10
  {
    assert n / 10 / 10 == n / 100;
  }

  lemma ThousandthsOfPadded3(n: nat)
    requires n < 1000
    ensures (forall c :: c in Padded3(n) ==> IsDigit(c)) && Thousandths(Padded3(n)) == n
  {
    ThousandthsOfThree(n / 100, n / 10 % 10, n % 10);
    ThreeDigits(n);
  }

  /** Milliseconds read from groups of a number and its unit, each group after the first being optional. */
  function Read(s: string): nat
    decreases |s|
  {
    var d := DigitsOf(s);
    var rest := s[|d|..];
    if d == [] || rest == [] then 0
    else if rest[0] == 'h' then Number(d) * 3_600_000 + Read(rest[1..])
    else if rest[0] == 'm' then Number(d) * 60_000 + Read(rest[1..])
    else if rest[0] == '.' then Number(d) * 1000 + Thousandths(DigitsOf(rest[1..]))
    else Number(d) * 1000
  }

  lemma {:induction false} DigitsThen(d: string, tail: string)
    requires forall c :: c in d ==> IsDigit(c)
    requires tail != [] && !IsDigit(tail[0])
    ensures DigitsOf(d + tail) == d && (d + tail)[|d|..] == tail
  {
    if d == [] {
      assert d + tail == tail;
    } else {
      DigitsThen(d[1..], tail);
      assert (d + tail)[1..] == d[1..] + tail;
      assert d == [d[0]] + d[1..];
    }
  }

  /** What a rendered duration still says. */
  function Shown(ms: nat): nat {
    if ms >= 3_600_000 then ms / 60_000 * 60_000
    else if ms >= 60_000 then ms / 1000 * 1000
    else ms
  }

  lemma ReadGroup(n: nat, unit: char, tail: string)
    requires unit == 'h' || unit == 'm'
    ensures Read(Decimal(n) + [unit] + tail) == n * (if unit == 'h' then 3_600_000 else 60_000) + Read(tail)
  {
    var s := Decimal(n) + [unit] + tail;
    DigitsThen(Decimal(n), [unit] + tail);
    assert s == Decimal(n) + ([unit] + tail);
    assert s[|Decimal(n)|..][1..] == tail;
    NumberOfDecimal(n);
  }

  lemma ReadSeconds(n: nat)
    ensures Read(Decimal(n) + "s") == n * 1000
  {
    DigitsThen(Decimal(n), "s");
    NumberOfDecimal(n);
  }

  lemma ReadFraction(n: nat, f: nat)
    requires f < 1000
    ensures Read(Decimal(n) + "." + Padded3(f) + "s") == n * 1000 + f
  {
    var s := Decimal(n) + "." + Padded3(f) + "s";
    DigitsThen(Decimal(n), "." + Padded3(f) + "s");
    assert s == Decimal(n) + ("." + Padded3(f) + "s");
    ThousandthsOfPadded3(f);
    DigitsThen(Padded3(f), "s");
    assert s[|Decimal(n)|..][1..] == Padded3(f) + "s";
    NumberOfDecimal(n);
  }

  /** Minutes and hours, counted through seconds or straight from milliseconds. */
  lemma SplitTime(ms: nat)
    ensures ms / 1000 / 60 == ms / 60_000
    ensures ms / 1000 / 60 / 60 == ms / 3_600_000
    ensures ms / 60_000 == ms / 3_600_000 * 60 + ms / 60_000 % 60
    ensures ms / 1000 == ms / 60_000 * 60 + ms / 1000 % 60
  {
    assert ms / 60_000 / 60 == ms / 3_600_000;
  }

  /** Reading back what was printed gives the duration floored to the last unit printed. */
  lemma ReadsBack(ms: nat)
    ensures Read(Human(ms)) == Shown(ms)
  {
    var sec, min, hours := ms / 1000, ms / 1000 / 60, ms / 1000 / 60 / 60;
    SplitTime(ms);
    if hours != 0 {
      var tail := if min % 60 != 0 then Decimal(min % 60) + "m" else "";
      assert Human(ms) == Decimal(hours) + ['h'] + tail;
      ReadGroup(hours, 'h', tail);
      if min % 60 != 0 {
        ReadGroup(min % 60, 'm', "");
        assert Decimal(min % 60) + ['m'] + "" == tail;
      }
      assert Read("") == 0;
    } else if min % 60 != 0 {
      assert Human(ms) == Decimal(min % 60) + ['m'] + (Decimal(sec % 60) + "s");
      ReadGroup(min % 60, 'm', Decimal(sec % 60) + "s");
      ReadSeconds(sec % 60);
    } else if ms % 1000 != 0 {
      assert Human(ms) == Decimal(sec % 60) + "." + Padded3(ms % 1000) + "s";
      ReadFraction(sec % 60, ms % 1000);
    } else {
      assert Human(ms) == Decimal(sec % 60) + "s";
      ReadSeconds(sec % 60);
    }
  }

  /** So at most a sixtieth of a duration is lost, and longer durations never read as shorter. */
  lemma LossIsBounded(ms: nat)
    ensures Read(Human(ms)) <= ms
    ensures ms < 60_000 ==> Read(Human(ms)) == ms
    ensures ms >= 60_000 ==> 60 * (ms - Read(Human(ms))) < ms
  {
    ReadsBack(ms);
  }

  lemma ShownIsMonotone(a: nat, b: nat)
    requires a <= b
    ensures Shown(a) <= Shown(b)
  {
    assert a / 1000 <= b / 1000 && a / 60_000 <= b / 60_000;
  }

  lemma ReadingIsMonotone(a: nat, b: nat)
    requires a <= b
    ensures Read(Human(a)) <= Read(Human(b))
  {
    ReadsBack(a);
    ReadsBack(b);
    ShownIsMonotone(a, b);
  }

  lemma ShownPrintsAlike(ms: nat)
    ensures Human(Shown(ms)) == Human(ms)
  {
    var t := Shown(ms);
    SplitTime(ms);
    SplitTime(t);
    if ms >= 3_600_000 {
      assert t / 60_000 == ms / 60_000;
    } else if ms >= 60_000 {
      assert t / 1000 == ms / 1000;
    }
  }

  /** Two durations print alike exactly when nothing that is printed tells them apart. */
  lemma SameStringExactly(a: nat, b: nat)
    ensures Human(a) == Human(b) <==> Shown(a) == Shown(b)
  {
    ReadsBack(a);
    ReadsBack(b);
    if Shown(a) == Shown(b) {
      ShownPrintsAlike(a);
      ShownPrintsAlike(b);
    }
  }
}
