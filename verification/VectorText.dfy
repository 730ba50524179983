/**
 Embedding vectors as database text: `f"{value:.8f}"` entries, comma-joined in
 square brackets, and the reader that takes such a text apart again.

 Entries are reals; the printer rounds to the nearest multiple of 10^-8, a tie going
 to the even multiple, and keeps the minus sign of every negative entry, also of one
 that rounds to zero.
 */
module VectorText {
  import opened Options
  import opened Decimals
  import opened Splitting
  import opened Vectors

  const SCALE: nat := 100_000_000

  function Abs(x: real): real { if x < 0.0 then -x else x }

  // ----- rounding -----

  /** The integer nearest to a non-negative real, ties to even. */
  function RoundHalfEven(x: real): (n: nat)
    requires x >= 0.0
    ensures Abs(n as real - x) <= 0.5
    ensures Abs(n as real - x) == 0.5 ==> n % 2 == 0
  {
    var below := x.Floor;
    var rest := x - below as real;
    if rest < 0.5 || (rest == 0.5 && below % 2 == 0) then below else below + 1
  }

  /** How many units of 10^-8 the printed magnitude of `x` has. */
  function Units(x: real): nat
  {
    RoundHalfEven(Abs(x) * SCALE as real)
  }

  /** The value the printed text of `x` denotes. */
  function Nearest(x: real): real
  {
    var magnitude := Units(x) as real / SCALE as real;
    if x < 0.0 then -magnitude else magnitude
  }

  /** The `k`-th multiple of 10^-8. */
  function GridPoint(k: int): real { k as real / SCALE as real }

  ghost predicate OnGrid(x: real)
  {
    exists k: int :: x == GridPoint(k)
  }

  // ----- one entry -----

  /** Whole part, point, and exactly eight digits. */
  function MagnitudeText(u: nat): (s: string)
    ensures |s| >= 10 && IsDigit(s[0]) && IsDigit(s[|s| - 1])
    ensures ',' !in s
  {
    var whole, fraction := NatText(u / SCALE), PaddedText(u % SCALE, 8);
    assert forall i :: 0 <= i < |whole| ==> IsDigit(whole[i]) && whole[i] != ',';
    assert forall i :: 0 <= i < |fraction| ==> IsDigit(fraction[i]) && fraction[i] != ',';
    whole + ['.'] + fraction
  }

  /** `f"{value:.8f}"` */
  function FixedText(x: real): (s: string)
    ensures s != []
    ensures ',' !in s
  {
    if x < 0.0 then ['-'] + MagnitudeText(Units(x)) else MagnitudeText(Units(x))
  }

  /** `float(item)` on fixed-point notation: a sign, digits, and at most one point. */
  function ParseFixed(s: string): Option<real>
  {
    if s != [] && s[0] == '-' then
      match ParseUnsigned(s[1..])
      case None => None
      case Some(x) => Some(-x)
    else if s != [] && s[0] == '+' then ParseUnsigned(s[1..])
    else ParseUnsigned(s)
  }

  function ParseUnsigned(s: string): Option<real>
  {
    ParseParts(Split(s, '.'))
  }

  function ParseParts(parts: seq<string>): Option<real>
    requires parts != []
  {
    if |parts| > 2 || !AllDigits(parts[0]) || (|parts| == 2 && !AllDigits(parts[1])) then None
    else if |parts| == 1 then
      if parts[0] == [] then None else Some(NatValue(parts[0]) as real)
    else if parts[0] == [] && parts[1] == [] then None
    else Some(NatValue(parts[0]) as real + NatValue(parts[1]) as real / Pow10(|parts[1]|) as real)
  }

  // ----- whole vectors -----

  function Entries(values: Vector): (items: seq<string>)
    ensures |items| == |values|
    ensures forall i :: 0 <= i < |values| ==> items[i] == FixedText(values[i])
  {
    if values == [] then [] else [FixedText(values[0])] + Entries(values[1..])
  }

  function VectorToDb(values: Vector): string
  {
    "[" + Join(Entries(values), ',') + "]"
  }

  /** The list comprehension over `text.split(",")`; None where `float` raises ValueError. */
  function ParseItems(items: seq<string>): (r: Option<Vector>)
    ensures r.Some? ==> |r.value| == |items|
  {
    if items == [] then Some([])
    else
      match (ParseFixed(Strip(items[0])), ParseItems(items[1..]))
      case (Some(x), Some(xs)) => Some([x] + xs)
      case _ => None
  }

  function DbToVector(value: string): Option<Vector>
  {
    var stripped := Strip(value);
    var text :=
      if |stripped| >= 2 && stripped[0] == '[' && stripped[|stripped| - 1] == ']'
      then stripped[1..|stripped| - 1] else stripped;
    if text == [] then Some([]) else ParseItems(Split(text, ','))
  }

  /** What a vector becomes when it is stored and loaded. */
  function Rounded(values: Vector): (r: Vector)
    ensures |r| == |values|
    ensures forall i :: 0 <= i < |values| ==> r[i] == Nearest(values[i])
  {
    if values == [] then [] else [Nearest(values[0])] + Rounded(values[1..])
  }

  // ----- rounding lemmas -----

  lemma NearestIsClose(x: real)
    ensures Abs(Nearest(x) - x) <= 0.5 / SCALE as real
  {
    var scaled := Abs(x) * SCALE as real;
    assert Abs(Units(x) as real - scaled) <= 0.5;
    assert Abs(Units(x) as real / SCALE as real - Abs(x)) <= 0.5 / SCALE as real;
  }

  lemma NearestIsExactOnGrid(x: real)
    ensures Nearest(x) == x <==> OnGrid(x)
  {
    if Nearest(x) == x {
      var k: int := if x < 0.0 then -(Units(x) as int) else Units(x);
      assert x == GridPoint(k);
    }
    if OnGrid(x) {
      var k: int :| x == GridPoint(k);
      var m: nat := if k < 0 then -k else k;
      assert Abs(x) * SCALE as real == m as real;
      assert Units(x) == m;
    }
  }

  lemma NearestIsStable(x: real)
    ensures Nearest(Nearest(x)) == Nearest(x)
  {
    var k: int := if x < 0.0 then -(Units(x) as int) else Units(x);
    assert Nearest(x) == GridPoint(k);
    NearestIsExactOnGrid(Nearest(x));
  }

  // ----- one entry, printed and parsed -----

  lemma ScaleIsPow10()
    ensures Pow10(8) == SCALE
  {
    assert Pow10(4) == 10_000;
    assert Pow10(8) == 10_000 * Pow10(4);
  }

  lemma DigitsHoldNo(s: string, c: char)
    requires AllDigits(s) && !IsDigit(c)
    ensures c !in s
  {
  }

  lemma SplitAtPoint(whole: string, fraction: string)
    requires AllDigits(whole) && AllDigits(fraction)
    ensures Split(whole + ['.'] + fraction, '.') == [whole, fraction]
  {
    DigitsHoldNo(whole, '.');
    DigitsHoldNo(fraction, '.');
    SplitPrefix(whole, fraction, '.');
    SplitPlain(fraction, '.');
    assert whole + ['.'] + fraction == whole + (['.'] + fraction);
    assert [whole] + [fraction] == [whole, fraction];
  }

  lemma WholeAndFraction(u: nat, scale: nat)
    requires scale > 0
    ensures (u / scale) as real + (u % scale) as real / scale as real == u as real / scale as real
  {
    assert u == u / scale * scale + u % scale;
    assert u as real == (u / scale) as real * scale as real + (u % scale) as real;
  }

  lemma UnsignedRoundTrip(u: nat)
    ensures ParseUnsigned(MagnitudeText(u)) == Some(u as real / SCALE as real)
  {
    var whole, fraction := NatText(u / SCALE), PaddedText(u % SCALE, 8);
    SplitAtPoint(whole, fraction);
    ScaleIsPow10();
    NatRoundTrip(u / SCALE);
    PaddedRoundTrip(u % SCALE, 8);
    WholeAndFraction(u, SCALE);
  }

  lemma EntryRoundTrip(x: real)
    ensures ParseFixed(FixedText(x)) == Some(Nearest(x))
  {
    UnsignedRoundTrip(Units(x));
    if x < 0.0 {
      assert FixedText(x)[1..] == MagnitudeText(Units(x));
    }
  }

  lemma StripKeepsEntry(x: real)
    ensures Strip(FixedText(x)) == FixedText(x)
  {
    var s := FixedText(x);
    assert IsDigit(s[|s| - 1]) && !IsSpace(s[|s| - 1]);
    assert (s[0] == '-' || IsDigit(s[0])) && !IsSpace(s[0]);
  }

  lemma {:induction false} ItemsRoundTrip(values: Vector)
    ensures ParseItems(Entries(values)) == Some(Rounded(values))
  {
    if values == [] {
    } else {
      ItemsRoundTrip(values[1..]);
      EntryRoundTrip(values[0]);
      StripKeepsEntry(values[0]);
      assert Entries(values)[1..] == Entries(values[1..]);
    }
  }

  lemma JoinOfEntriesNotEmpty(values: Vector)
    requires values != []
    ensures Join(Entries(values), ',') != []
  {
    assert Entries(values)[0] == FixedText(values[0]);
  }

  /** Storing and loading a vector rounds every entry and does nothing else. */
  lemma RoundTrip(values: Vector)
    ensures DbToVector(VectorToDb(values)) == Some(Rounded(values))
  {
    var inner := Join(Entries(values), ',');
    var text := VectorToDb(values);
    assert text[0] == '[' && text[|text| - 1] == ']';
    assert Strip(text) == text;
    assert text[1..|text| - 1] == inner;
    if values == [] {
      assert inner == [];
    } else {
      JoinOfEntriesNotEmpty(values);
      SplitJoin(Entries(values), ',');
      ItemsRoundTrip(values);
    }
  }

  /**
   A stored vector has the same length, every entry within half a unit of 10^-8, equal
   to the original exactly when the original is a multiple of 10^-8.
   */
  lemma RoundTripIsClose(values: Vector)
    ensures DbToVector(VectorToDb(values)).Some?
    ensures var back := DbToVector(VectorToDb(values)).value;
      && |back| == |values|
      && (forall i :: 0 <= i < |values| ==> Abs(back[i] - values[i]) <= 0.5 / SCALE as real)
      && (forall i :: 0 <= i < |values| ==> (back[i] == values[i] <==> OnGrid(values[i])))
      && (back == values <==> forall i :: 0 <= i < |values| ==> OnGrid(values[i]))
  {
    RoundTrip(values);
    forall i | 0 <= i < |values|
      ensures Abs(Rounded(values)[i] - values[i]) <= 0.5 / SCALE as real
      ensures Rounded(values)[i] == values[i] <==> OnGrid(values[i])
    {
      NearestIsClose(values[i]);
      NearestIsExactOnGrid(values[i]);
    }
  }

  lemma RoundedIsStable(values: Vector)
    ensures Rounded(Rounded(values)) == Rounded(values)
  {
    forall i | 0 <= i < |values|
      ensures Rounded(Rounded(values))[i] == Rounded(values)[i]
    {
      NearestIsStable(values[i]);
    }
  }

  /** A second store-and-load changes nothing. */
  lemma SecondRoundTripChangesNothing(values: Vector)
    requires DbToVector(VectorToDb(values)).Some?
    ensures var back := DbToVector(VectorToDb(values)).value;
      DbToVector(VectorToDb(back)) == Some(back)
  {
    RoundTrip(values);
    RoundTrip(Rounded(values));
    RoundedIsStable(values);
  }

  // ----- what the text looks like, and what reads as what -----

  lemma FractionValue(u: nat)
    ensures NatValue(PaddedText(u % SCALE, 8)) == u % SCALE
  {
    ScaleIsPow10();
    PaddedRoundTrip(u % SCALE, 8);
  }

  lemma MagnitudeFormat(u: nat) returns (whole: string, fraction: string)
    ensures MagnitudeText(u) == whole + ['.'] + fraction
    ensures AllDigits(whole) && AllDigits(fraction) && |fraction| == 8 && whole != []
    ensures whole[0] == '0' ==> whole == ['0']
    ensures NatValue(whole) == u / 100_000_000 && NatValue(fraction) == u % 100_000_000
  {
    whole, fraction := NatText(u / SCALE), PaddedText(u % SCALE, 8);
    FractionValue(u);
    NatRoundTrip(u / SCALE);
    NoLeadingZero(u / SCALE);
  }

  /** A sign for a negative entry only, the whole part, a point, and eight digits. */
  lemma EntryFormat(x: real) returns (sign: string, whole: string, fraction: string)
    ensures FixedText(x) == sign + (whole + ['.'] + fraction)
    ensures sign == if x < 0.0 then ['-'] else []
    ensures AllDigits(whole) && AllDigits(fraction) && |fraction| == 8 && whole != []
    ensures whole[0] == '0' ==> whole == ['0']
    ensures NatValue(whole) == Units(x) / 100_000_000 && NatValue(fraction) == Units(x) % 100_000_000
  {
    sign := if x < 0.0 then ['-'] else [];
    whole, fraction := MagnitudeFormat(Units(x));
  }

  /** Entries between square brackets, with a comma and no blank between any two. */
  lemma VectorFormat(values: Vector)
    ensures var text := VectorToDb(values);
      && |text| >= 2 && text[0] == '[' && text[|text| - 1] == ']'
      && (values == [] ==> text == "[]")
      && (values != [] ==>
            var items := Split(text[1..|text| - 1], ',');
            |items| == |values| && forall i :: 0 <= i < |values| ==> items[i] == FixedText(values[i]))
  {
    var text, inner := VectorToDb(values), Join(Entries(values), ',');
    assert text[1..|text| - 1] == inner;
    if values != [] {
      SplitJoin(Entries(values), ',');
    }
  }

  /** Digits, with or without a point among them. */
  lemma ReadsWhole(whole: string)
    requires AllDigits(whole) && whole != []
    ensures ParseUnsigned(whole) == Some(NatValue(whole) as real)
  {
    DigitsHoldNo(whole, '.');
    SplitPlain(whole, '.');
  }

  lemma ReadsPoint(whole: string, fraction: string)
    requires AllDigits(whole) && AllDigits(fraction)
    ensures ParseUnsigned(whole + ['.'] + fraction) == ParseParts([whole, fraction])
  {
    SplitAtPoint(whole, fraction);
  }

  /** The digits behind the point count as tenths, hundredths and so on; some digit is needed. */
  lemma ReadsParts(parts: seq<string>)
    requires |parts| == 2 && AllDigits(parts[0]) && AllDigits(parts[1])
    ensures ParseParts(parts)
      == if parts[0] == [] && parts[1] == [] then None
         else Some(NatValue(parts[0]) as real + NatValue(parts[1]) as real / Pow10(|parts[1]|) as real)
  {
  }

  lemma ReadsSigns(s: string)
    ensures ParseFixed(['+'] + s) == ParseUnsigned(s)
    ensures ParseFixed(['-'] + s)
      == match ParseUnsigned(s) case Some(x) => Some(-x) case None => None
    ensures s != [] && (IsDigit(s[0]) || s[0] == '.') ==> ParseFixed(s) == ParseUnsigned(s)
  {
    assert (['+'] + s)[1..] == s && (['-'] + s)[1..] == s;
  }

  /** Nothing else reads as a number. */
  lemma RefusesOtherText(s: string) returns (whole: string, fraction: string)
    requires ParseUnsigned(s).Some?
    ensures AllDigits(whole) && AllDigits(fraction) && (whole != [] || fraction != [])
    ensures s == whole || s == whole + ['.'] + fraction
  {
    var parts := Split(s, '.');
    JoinSplit(s, '.');
    whole, fraction := parts[0], if |parts| == 2 then parts[1] else [];
    if |parts| == 2 {
      assert parts[1..] == [parts[1]];
    }
  }

  /** The brackets around the entries are optional, and so are blanks around the text. */
  lemma BracketsAreOptional(inner: string)
    requires Strip(inner) == inner && inner != [] && inner[0] != '['
    ensures DbToVector(['['] + inner + [']']) == DbToVector(inner) == ParseItems(Split(inner, ','))
  {
    var text := ['['] + inner + [']'];
    assert text[1..|text| - 1] == inner;
    assert !IsSpace('[') && !IsSpace(']');
    assert Strip(text) == text;
  }

  // ----- when the text itself is a fixed point -----

  /** A negative entry too small for eight places is printed "-0.00000000". */
  predicate NegativeUnderflow(x: real) { x < 0.0 && Units(x) == 0 }

  lemma UnitsOfNearest(x: real)
    ensures Units(Nearest(x)) == Units(x)
  {
    assert Abs(Nearest(x)) * SCALE as real == Units(x) as real;
  }

  lemma EntryTextIsStable(x: real)
    ensures FixedText(Nearest(x)) == FixedText(x) <==> !NegativeUnderflow(x)
  {
    UnitsOfNearest(x);
    if NegativeUnderflow(x) {
      assert FixedText(x)[0] == '-';
      assert IsDigit(FixedText(Nearest(x))[0]);
    }
  }

  lemma EntriesFromText(a: Vector, b: Vector)
    requires |a| == |b| && VectorToDb(a) == VectorToDb(b)
    ensures Entries(a) == Entries(b)
  {
    var x, y := Join(Entries(a), ','), Join(Entries(b), ',');
    assert VectorToDb(a)[1..|VectorToDb(a)| - 1] == x;
    assert VectorToDb(b)[1..|VectorToDb(b)| - 1] == y;
    if a != [] {
      SplitJoin(Entries(a), ',');
      SplitJoin(Entries(b), ',');
    }
  }

  /** Reprinting a stored vector gives the same text unless some entry underflowed below zero. */
  lemma TextIsStable(values: Vector)
    ensures VectorToDb(Rounded(values)) == VectorToDb(values)
      <==> forall i :: 0 <= i < |values| ==> !NegativeUnderflow(values[i])
  {
    var r := Rounded(values);
    forall i | 0 <= i < |values|
      ensures Entries(r)[i] == Entries(values)[i] <==> !NegativeUnderflow(values[i])
    {
      EntryTextIsStable(values[i]);
    }
    if VectorToDb(r) == VectorToDb(values) {
      EntriesFromText(r, values);
    }
    if forall i :: 0 <= i < |values| ==> !NegativeUnderflow(values[i]) {
      assert Entries(r) == Entries(values);
    }
  }
}
