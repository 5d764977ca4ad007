/**
 * A data item's metadata and its unit conversion (agent/data_item.cpp).
 * The attributes the constructor reads are fixed for the item's life and
 * are `const` fields; the conversion memo (whether conversion is required,
 * and the cached factor and offset) is updated in place by
 * ConversionRequired, ConvertValue and SimpleFactor.
 */
module DataItems {
  import opened Wrappers
  import opened Strings
  import opened OrderedMaps

  datatype Category = Sample | Event

  /** attributes[k] on the constructor's by-value map: the stored value, or "" when absent. */
  function Attribute(m: Entries<string>, k: string): (r: string)
    ensures Get(m, k).Some? ==> r == Get(m, k).value
    ensures Get(m, k).None? ==> r == ""
  {
    match Get(m, k)
    case Some(v) => v
    case None => ""
  }

  // ---------------------------------------------------------------------
  // getCamelType

  /** getCamelType is defined only when no '_' ends the type after its first character. */
  predicate CamelDefined(t: string)
  {
    |t| <= 1 || t[|t| - 1] != '_'
  }

  /** Each '_' is dropped and the character after it upper-cased; a final '_' is dropped. */
  function CamelRest(s: string): string
    decreases |s|
  {
    if s == [] then []
    else if s[0] != '_' then [s[0]] + CamelRest(s[1..])
    else if |s| == 1 then []
    else CamelRest([Upper(s[1])] + s[2..])
  }

  /** The camel-case form of a type: its first character, then the rest lower-cased with words joined. */
  function Camel(t: string): string
  {
    if t == [] then [] else [t[0]] + CamelRest(LowerAll(t[1..]))
  }

  lemma {:induction false} CamelRestNoUnderscore(s: string)
    requires forall i :: 0 <= i < |s| ==> s[i] != '_'
    ensures CamelRest(s) == s
    decreases |s|
  {
    if s != [] {
      CamelRestNoUnderscore(s[1..]);
      assert s == [s[0]] + s[1..];
    }
  }

  /** Characters before the first '_' pass through CamelRest unchanged. */
  lemma {:induction false} CamelRestSkip(s: string, w: nat)
    requires w <= |s| && forall i :: 0 <= i < w ==> s[i] != '_'
    ensures CamelRest(s) == s[..w] + CamelRest(s[w..])
    decreases w
  {
    if w > 0 {
      var t := s[1..];
      assert CamelRest(s) == [s[0]] + CamelRest(t);
      CamelRestSkip(t, w - 1);
      assert t[..w - 1] == s[1..w] && t[w - 1..] == s[w..];
      assert s[..w] == [s[0]] + s[1..w];
    }
  }

  /** The camel-case form holds no '_' after its first character. */
  lemma {:induction false} CamelRestJoined(s: string)
    ensures forall i :: 0 <= i < |CamelRest(s)| ==> CamelRest(s)[i] != '_'
    decreases |s|
  {
    if s != [] {
      if s[0] != '_' {
        CamelRestJoined(s[1..]);
      } else if |s| > 1 {
        CamelRestJoined([Upper(s[1])] + s[2..]);
      }
    }
  }

  lemma CamelJoined(t: string)
    ensures forall i :: 1 <= i < |Camel(t)| ==> Camel(t)[i] != '_'
    ensures |Camel(t)| <= |t| && (t != [] ==> Camel(t)[0] == t[0])
  {
    if t != [] {
      CamelRestJoined(LowerAll(t[1..]));
      CamelRestShorter(LowerAll(t[1..]));
    }
  }

  lemma {:induction false} CamelRestShorter(s: string)
    ensures |CamelRest(s)| <= |s|
    decreases |s|
  {
    if s != [] {
      if s[0] != '_' {
        CamelRestShorter(s[1..]);
      } else if |s| > 1 {
        CamelRestShorter([Upper(s[1])] + s[2..]);
      }
    }
  }

  /** A type without '_' after its first character is only lower-cased after that character. */
  lemma SingleWord(t: string)
    requires t != [] && forall i :: 1 <= i < |t| ==> t[i] != '_'
    ensures Camel(t) == [t[0]] + LowerAll(t[1..])
  {
    CamelRestNoUnderscore(LowerAll(t[1..]));
  }

  /**
   * Two lower-cased words joined by '_' become one word with the second
   * word's first letter upper-cased.
   */
  lemma JoinWords(x: string, y: string)
    requires forall i :: 0 <= i < |x| ==> x[i] != '_'
    requires y != [] && forall i :: 0 <= i < |y| ==> y[i] != '_'
    ensures CamelRest(x + "_" + y) == x + [Upper(y[0])] + y[1..]
  {
    var s := x + "_" + y;
    CamelRestSkip(s, |x|);
    assert s[..|x|] == x;
    var tail := s[|x|..];
    assert tail == "_" + y;
    var rest := [Upper(y[0])] + y[1..];
    assert [Upper(tail[1])] + tail[2..] == rest;
    assert forall i :: 0 <= i < |rest| ==> rest[i] != '_';
    CamelRestNoUnderscore(rest);
  }

  lemma LowerPindleSpeed(u: string)
    requires u == "PINDLE_SPEED"
    ensures LowerAll(u) == "pindle_speed"
  {
    var l := "pindle_speed";
    assert Lower(u[0]) == l[0] && Lower(u[1]) == l[1] && Lower(u[2]) == l[2] && Lower(u[3]) == l[3];
    assert Lower(u[4]) == l[4] && Lower(u[5]) == l[5] && Lower(u[6]) == l[6] && Lower(u[7]) == l[7];
    assert Lower(u[8]) == l[8] && Lower(u[9]) == l[9] && Lower(u[10]) == l[10] && Lower(u[11]) == l[11];
    LowerAllEach(u, l);
  }

  /** LowerAll is determined character by character. */
  lemma LowerAllEach(u: string, l: string)
    requires |u| == |l| && forall i :: 0 <= i < |u| ==> Lower(u[i]) == l[i]
    ensures LowerAll(u) == l
  {
  }

  lemma JoinPindleSpeed()
    ensures CamelRest("pindle_speed") == "pindleSpeed"
  {
    JoinWords("pindle", "speed");
    assert "pindle" + "_" + "speed" == "pindle_speed";
    assert "pindle" + [Upper('s')] + "peed" == "pindleSpeed";
  }

  /** SPINDLE_SPEED becomes SpindleSpeed. */
  lemma SpindleSpeed(t: string)
    requires t == "SPINDLE_SPEED"
    ensures Camel(t) == "SpindleSpeed"
  {
    assert LowerAll(t[1..]) == "pindle_speed" by {
      LowerPindleSpeed(t[1..]);
    }
    assert CamelRest("pindle_speed") == "pindleSpeed" by {
      JoinPindleSpeed();
    }
  }

  /** std::find for '_' from `from`, in terms of characters. */
  lemma UnderscoreFrom(s: string, from: nat)
    ensures FindFrom(s, "_", from).Some? ==>
      var w := FindFrom(s, "_", from).value;
      from <= w < |s| && s[w] == '_' && forall i :: from <= i < w ==> s[i] != '_'
    ensures FindFrom(s, "_", from).None? ==> forall i :: from <= i < |s| ==> s[i] != '_'
  {
    FindFromIsFirst(s, "_", from);
    forall i | from <= i < |s| && s[i] == '_' ensures OccursAt(s, "_", i) {
      assert s[i..i + 1] == [s[i]];
    }
    if FindFrom(s, "_", from).Some? {
      var w := FindFrom(s, "_", from).value;
      assert s[w..w + 1][0] == s[w];
    }
  }

  /** One round of the loop: erasing the '_' at `w` and upper-casing what follows keeps the camel form. */
  lemma CamelStep(camel: string, done: nat, w: nat)
    requires 1 <= done <= w < |camel| && camel[w] == '_' && camel[|camel| - 1] != '_'
    requires forall i :: done <= i < w ==> camel[i] != '_'
    ensures w + 1 < |camel|
    ensures var erased := camel[..w] + camel[w + 1..];
      var next := erased[..w] + [Upper(erased[w])] + erased[w + 1..];
      camel[..done] + CamelRest(camel[done..]) == next[..w] + CamelRest(next[w..]) &&
      |next| == |camel| - 1 && next[|next| - 1] != '_'
  {
    var erased := camel[..w] + camel[w + 1..];
    var next := camel[..w] + [Upper(camel[w + 1])] + camel[w + 2..];
    EraseUpper(camel, w, erased, next);
    JoinAt(camel, done, w, next);
  }

  /** Erasing the '_' at `w` and then upper-casing index `w` is one splice. */
  lemma EraseUpper(camel: string, w: nat, erased: string, next: string)
    requires w + 1 < |camel| && erased == camel[..w] + camel[w + 1..]
    requires next == camel[..w] + [Upper(camel[w + 1])] + camel[w + 2..]
    ensures w < |erased| && erased[..w] + [Upper(erased[w])] + erased[w + 1..] == next
  {
    assert erased[..w] == camel[..w] && erased[w] == camel[w + 1] && erased[w + 1..] == camel[w + 2..];
  }

  /** Joining the word at the first '_' after `done` keeps the camel form. */
  lemma JoinAt(camel: string, done: nat, w: nat, next: string)
    requires 1 <= done <= w && w + 1 < |camel| && camel[w] == '_'
    requires forall i :: done <= i < w ==> camel[i] != '_'
    requires next == camel[..w] + [Upper(camel[w + 1])] + camel[w + 2..]
    ensures camel[..done] + CamelRest(camel[done..]) == next[..w] + CamelRest(next[w..])
  {
    var skipped := camel[done..w];
    var joined := [Upper(camel[w + 1])] + camel[w + 2..];
    assert next[..w] == camel[..done] + skipped && next[w..] == joined;
    assert CamelRest(camel[done..]) == skipped + CamelRest(camel[w..]) by {
      var tail := camel[done..];
      CamelRestSkip(tail, w - done);
      assert tail[..w - done] == skipped && tail[w - done..] == camel[w..];
    }
    assert CamelRest(camel[w..]) == CamelRest(joined) by {
      var u := camel[w..];
      assert u[1] == camel[w + 1] && u[2..] == camel[w + 2..];
      assert u[0] == '_' && |u| > 1 && [Upper(u[1])] + u[2..] == joined;
    }
  }

  /**
   * getCamelType: lower-case everything after the first character, then
   * repeatedly erase the next '_' and upper-case the character that moves
   * into its place.
   */
  method GetCamelType(t: string) returns (camel: string)
    requires CamelDefined(t)
    ensures camel == Camel(t)
  {
    if t == [] {
      return "";
    }
    camel := [t[0]] + LowerAll(t[1..]);
    CamelStart(t, camel);
    ghost var done: nat := 1;
    var word := FindFrom(camel, "_", 1);
    UnderscoreFrom(camel, 1);
    while word.Some?
      invariant 1 <= done <= |camel|
      invariant Camel(t) == camel[..done] + CamelRest(camel[done..])
      invariant |camel| <= done || camel[|camel| - 1] != '_'
      invariant word.Some? ==> done <= word.value < |camel| && camel[word.value] == '_'
      invariant word.Some? ==> forall i :: done <= i < word.value ==> camel[i] != '_'
      invariant word.None? ==> forall i :: done <= i < |camel| ==> camel[i] != '_'
      decreases |camel| - done
    {
      var w := word.value;
      CamelStep(camel, done, w);
      camel := camel[..w] + camel[w + 1..];
      camel := camel[..w] + [Upper(camel[w])] + camel[w + 1..];
      done := w;
      word := FindFrom(camel, "_", w);
      UnderscoreFrom(camel, w);
    }
    CamelEnd(camel, done);
  }

  /** Before the loop: the first character is done and the rest is lower-cased. */
  lemma CamelStart(t: string, camel: string)
    requires t != [] && CamelDefined(t) && camel == [t[0]] + LowerAll(t[1..])
    ensures |camel| == |t| && Camel(t) == camel[..1] + CamelRest(camel[1..])
    ensures |camel| <= 1 || camel[|camel| - 1] != '_'
  {
    assert camel[1..] == LowerAll(t[1..]);
    if |t| > 1 {
      assert camel[|camel| - 1] == LowerAll(t[1..])[|t| - 2] == Lower(t[|t| - 1]);
    }
  }

  /** After the loop: with no '_' left, the camel form is the string itself. */
  lemma CamelEnd(camel: string, done: nat)
    requires done <= |camel| && forall i :: done <= i < |camel| ==> camel[i] != '_'
    ensures camel[..done] + CamelRest(camel[done..]) == camel
  {
    CamelRestNoUnderscore(camel[done..]);
    assert camel == camel[..done] + camel[done..];
  }

  // ---------------------------------------------------------------------
  // Unit factors

  /** simpleFactor's table: the factor that brings a native unit to the standard unit; 1 for every other name. */
  function UnitFactor(units: string): (f: real)
    ensures f > 0.0
    ensures units !in SimpleUnits ==> f == 1.0
  {
    match units
    case "INCH" => 25.4
    case "FOOT" => 304.8
    case "CENTIMETER" => 10.0
    case "DECIMETER" => 100.0
    case "METER" => 1000.0
    case "FAHRENHEIT" => 5.0 / 9.0
    case "POUND" => 0.45359237
    case "GRAM" => 1.0 / 1000.0
    case "RADIAN" => 57.2957795
    case "MINUTE" => 60.0
    case "HOUR" => 3600.0
    case _ => 1.0
  }

  /** The names the table knows (SSimpleUnits). */
  const SimpleUnits: seq<string> := [
    "INCH", "FOOT", "CENTIMETER", "DECIMETER", "METER", "FAHRENHEIT",
    "POUND", "GRAM", "RADIAN", "MINUTE", "HOUR", "SECOND", "MILLIMETER",
    "LITER", "DEGREE", "KILOGRAM", "NEWTON", "CELSIUS", "REVOLUTION",
    "STATUS", "PERCENT", "NEWTON_MILLIMETER", "HERTZ"]

  /** pow(x, n) for a whole exponent. */
  function Pow(x: real, n: nat): (r: real)
    ensures x > 0.0 ==> r > 0.0
  {
    if n == 0 then 1.0 else x * Pow(x, n - 1)
  }

  /** The exponent after '^': atof of it, read here as its leading decimal digits. */
  function Exponent(power: string): nat
  {
    ParseNat(LeadingDigits(power))
  }

  /** A quotient of positive factors is positive. */
  lemma QuotientPositive(a: real, b: real)
    requires a > 0.0 && b > 0.0
    ensures a / b > 0.0
  {
  }

  /** The factor for a denominator, with or without a power. */
  function DenominatorFactor(denominator: string): (f: real)
    ensures f > 0.0
  {
    match Find(denominator, "^")
    case None => UnitFactor(denominator)
    case Some(caret) => Pow(UnitFactor(denominator[..caret]), Exponent(denominator[caret + 1..]))
  }

  /** The units the denominator makes simpleFactor look up. */
  function DenominatorUnits(denominator: string): seq<string>
  {
    match Find(denominator, "^")
    case None => [denominator]
    case Some(caret) => [denominator[..caret]]
  }

  /** The factor for a units text with a '/' at `slash`. */
  function CompoundFactor(units: string, slash: nat): (f: real)
    requires slash < |units|
    ensures f > 0.0
  {
    var numerator := units[..slash];
    var denominator := units[slash + 1..];
    if units == "REVOLUTION/MINUTE" then 1.0
    else if numerator == "REVOLUTION" && denominator == "SECOND" then 60.0
    else
      QuotientPositive(UnitFactor(numerator), DenominatorFactor(denominator));
      UnitFactor(numerator) / DenominatorFactor(denominator)
  }

  function CompoundUnits(units: string, slash: nat): seq<string>
    requires slash < |units|
  {
    var numerator := units[..slash];
    var denominator := units[slash + 1..];
    if units == "REVOLUTION/MINUTE" then []
    else if numerator == "REVOLUTION" && denominator == "SECOND" then []
    else DenominatorUnits(denominator) + [numerator]
  }

  /**
   * The factor convertValue selects for the native units, before any native
   * scale: the table's factor without '/'; 1 for REVOLUTION/MINUTE; 60 for
   * REVOLUTION/SECOND; otherwise the numerator's factor over the
   * denominator's, raised to the power after '^' when there is one.
   */
  function Factor(units: string): (f: real)
    ensures f > 0.0
  {
    match Find(units, "/")
    case None => UnitFactor(units)
    case Some(slash) => CompoundFactor(units, slash)
  }

  /**
   * The units convertValue hands to simpleFactor, in call order: the whole
   * units without '/'; nothing for REVOLUTION/MINUTE and REVOLUTION/SECOND;
   * otherwise the (powered) denominator, then the numerator.
   */
  function FactorUnits(units: string): (r: seq<string>)
  {
    match Find(units, "/")
    case None => [units]
    case Some(slash) => CompoundUnits(units, slash)
  }

  /** The offset: reset to 0, then set to -32 by any FAHRENHEIT simpleFactor looks up. */
  function Offset(units: string): (o: real)
    ensures o == 0.0 || o == -32.0
    ensures o == -32.0 <==> "FAHRENHEIT" in FactorUnits(units)
  {
    if "FAHRENHEIT" in FactorUnits(units) then -32.0 else 0.0
  }

  /** A non-zero value divided by a non-zero scale is non-zero, and multiplying back restores it. */
  lemma ScaleBack(a: real, b: real)
    requires a != 0.0 && b != 0.0
    ensures a / b != 0.0 && (a / b) * b == a
  {
  }

  /** The factor with the native scale divided out. */
  function ScaledFactor(units: string, hasScale: bool, scale: real): (f: real)
    requires hasScale ==> scale != 0.0
    ensures f != 0.0
    ensures !hasScale ==> f == Factor(units)
    ensures hasScale ==> f == Factor(units) / scale
  {
    var g := Factor(units);
    if hasScale then
      ScaleBack(g, scale);
      g / scale
    else g
  }

  /** A converted value: offset first, then the factor. */
  function Convert(raw: real, offset: real, factor: real): real
  {
    (raw + offset) * factor
  }

  // ---------------------------------------------------------------------
  // Properties of the conversion

  /**
   * The conversion of any native units, with or without a (non-zero) native
   * scale, maps distinct readings to distinct values.
   */
  lemma ConversionInjective(units: string, hasScale: bool, scale: real, a: real, b: real)
    requires hasScale ==> scale != 0.0
    ensures var f := ScaledFactor(units, hasScale, scale);
      Convert(a, Offset(units), f) == Convert(b, Offset(units), f) <==> a == b
  {
    InjectiveStep(a, b, Offset(units), ScaledFactor(units, hasScale, scale));
  }

  lemma InjectiveStep(a: real, b: real, offset: real, factor: real)
    requires factor != 0.0
    ensures Convert(a, offset, factor) == Convert(b, offset, factor) <==> a == b
  {
    if Convert(a, offset, factor) == Convert(b, offset, factor) {
      assert (a - b) * factor == 0.0;
    }
  }

  /**
   * Every factor is positive, so the conversion preserves the order of
   * readings when there is no native scale or the native scale is positive.
   */
  lemma ConversionMonotone(units: string, hasScale: bool, scale: real, a: real, b: real)
    requires hasScale ==> scale > 0.0
    requires a < b
    ensures var f := ScaledFactor(units, hasScale, scale);
      Convert(a, Offset(units), f) < Convert(b, Offset(units), f)
  {
    if hasScale {
      QuotientPositive(Factor(units), scale);
    }
    MonotoneStep(a, b, Offset(units), ScaledFactor(units, hasScale, scale));
  }

  lemma MonotoneStep(a: real, b: real, offset: real, factor: real)
    requires a < b && factor > 0.0
    ensures Convert(a, offset, factor) < Convert(b, offset, factor)
  {
  }

  /** A reading in FAHRENHEIT comes out in Celsius: 212 becomes 100 and 32 becomes 0. */
  lemma FahrenheitToCelsius()
    ensures Convert(212.0, Offset("FAHRENHEIT"), ScaledFactor("FAHRENHEIT", false, 0.0)) == 100.0
    ensures Convert(32.0, Offset("FAHRENHEIT"), ScaledFactor("FAHRENHEIT", false, 0.0)) == 0.0
  {
    Absent("FAHRENHEIT", '/');
  }

  /** A character the text does not hold is not found in it. */
  lemma Absent(s: string, c: char)
    requires forall i :: 0 <= i < |s| ==> s[i] != c
    ensures Find(s, [c]).None?
  {
    FindIsFirst(s, [c]);
    forall q | 0 <= q ensures !OccursAt(s, [c], q) {
      if q + 1 <= |s| {
        assert s[q..q + 1][0] == s[q];
      }
    }
  }

  /** The first '/' of `num + "/" + den`, when `num` has none, is the one between them. */
  lemma SlashAt(num: string, den: string)
    requires forall i :: 0 <= i < |num| ==> num[i] != '/'
    ensures Find(num + "/" + den, "/") == Some(|num|)
    ensures (num + "/" + den)[..|num|] == num && (num + "/" + den)[|num| + 1..] == den
  {
    var u := num + "/" + den;
    FindIsFirst(u, "/");
    assert u[|num|..|num| + 1] == "/";
    assert OccursAt(u, "/", |num|);
    forall q | 0 <= q < |num| ensures !OccursAt(u, "/", q) {
      assert u[q..q + 1][0] == u[q] == num[q];
    }
    var v := Find(u, "/").value;
    assert !(v < |num|) && !(|num| < v);
  }

  lemma CaretAt(unit: string, n: nat)
    requires forall i :: 0 <= i < |unit| ==> unit[i] != '^'
    ensures Find(unit + "^" + NatToString(n), "^") == Some(|unit|)
    ensures (unit + "^" + NatToString(n))[..|unit|] == unit
    ensures Exponent((unit + "^" + NatToString(n))[|unit| + 1..]) == n
  {
    var d := unit + "^" + NatToString(n);
    FindIsFirst(d, "^");
    assert d[|unit|..|unit| + 1] == "^";
    assert OccursAt(d, "^", |unit|);
    forall q | 0 <= q < |unit| ensures !OccursAt(d, "^", q) {
      assert d[q..q + 1][0] == d[q] == unit[q];
    }
    var v := Find(d, "^").value;
    assert !(v < |unit|) && !(|unit| < v);
    assert d[|unit| + 1..] == NatToString(n);
    AllDigitsLeading(NatToString(n));
    NatToStringRoundTrip(n);
  }

  lemma {:induction false} AllDigitsLeading(s: string)
    requires forall i :: 0 <= i < |s| ==> IsDigit(s[i])
    ensures LeadingDigits(s) == s
    decreases |s|
  {
    if s != [] {
      AllDigitsLeading(s[1..]);
    }
  }

  /** A quotient of units converts by the numerator's factor over the denominator's. */
  lemma QuotientFactor(num: string, den: string)
    requires forall i :: 0 <= i < |num| ==> num[i] != '/'
    requires forall i :: 0 <= i < |den| ==> den[i] != '^'
    requires num != "REVOLUTION" || (den != "MINUTE" && den != "SECOND")
    ensures Factor(num + "/" + den) == UnitFactor(num) / UnitFactor(den)
  {
    SlashAt(num, den);
    Absent(den, '^');
    SlashAt("REVOLUTION", "MINUTE");
    assert "REVOLUTION" + "/" + "MINUTE" == "REVOLUTION/MINUTE";
    assert num + "/" + den == "REVOLUTION/MINUTE" ==> num == "REVOLUTION";
  }

  /** A unit over a powered unit converts by the numerator's factor over the power of the denominator's. */
  lemma PowerFactor(num: string, unit: string, n: nat)
    requires forall i :: 0 <= i < |num| ==> num[i] != '/'
    requires forall i :: 0 <= i < |unit| ==> unit[i] != '^'
    ensures Factor(num + "/" + (unit + "^" + NatToString(n))) == UnitFactor(num) / Pow(UnitFactor(unit), n)
  {
    var den := unit + "^" + NatToString(n);
    SlashAt(num, den);
    CaretAt(unit, n);
  }

  /** Revolutions per second convert at sixty times the rate of revolutions per minute. */
  lemma RevolutionRates()
    ensures Factor("REVOLUTION/SECOND") == 60.0 * Factor("REVOLUTION/MINUTE")
  {
    SlashAt("REVOLUTION", "SECOND");
    SlashAt("REVOLUTION", "MINUTE");
    assert "REVOLUTION" + "/" + "SECOND" == "REVOLUTION/SECOND";
    assert "REVOLUTION" + "/" + "MINUTE" == "REVOLUTION/MINUTE";
  }

  // ---------------------------------------------------------------------
  // getAttributes

  /** One attribute getAttributes may write: its name, whether it is written, and its value. */
  type Field = (string, bool, string)

  /** The map built by assigning each present field in turn. */
  function Build(fs: seq<Field>): (r: Entries<string>)
    ensures Ascending(r)
    decreases |fs|
  {
    if fs == [] then []
    else
      var m := Build(fs[..|fs| - 1]);
      var f := fs[|fs| - 1];
      if f.1 then Insert(m, f.0, f.2) else m
  }

  predicate DistinctNames(fs: seq<Field>)
  {
    forall i, j :: 0 <= i < j < |fs| ==> fs[i].0 != fs[j].0
  }

  /** A field's name maps to its value exactly when the field is written; unnamed keys are absent. */
  lemma {:induction false} BuildGet(fs: seq<Field>, k: string)
    requires DistinctNames(fs)
    ensures forall i :: 0 <= i < |fs| && fs[i].0 == k ==> Get(Build(fs), k) == (if fs[i].1 then Some(fs[i].2) else None)
    ensures (forall i :: 0 <= i < |fs| ==> fs[i].0 != k) ==> Get(Build(fs), k) == None
    decreases |fs|
  {
    if fs != [] {
      var init := fs[..|fs| - 1];
      var f := fs[|fs| - 1];
      assert DistinctNames(init);
      BuildGet(init, k);
      BuildGet(init, f.0);
      assert forall i :: 0 <= i < |init| ==> init[i] == fs[i];
      if f.1 {
        GetAfterInsert(Build(init), f.0, f.2, k);
      }
    }
  }

  lemma BuildGetAt(fs: seq<Field>, i: nat)
    requires DistinctNames(fs) && i < |fs|
    ensures Get(Build(fs), fs[i].0) == if fs[i].1 then Some(fs[i].2) else None
  {
    BuildGet(fs, fs[i].0);
  }

  /** Only the fields' names are keys of the built map. */
  lemma BuildKeys(fs: seq<Field>)
    requires DistinctNames(fs)
    ensures forall k :: k in Keys(Build(fs)) ==> exists i :: 0 <= i < |fs| && fs[i].0 == k
  {
    forall k | k in Keys(Build(fs)) ensures exists i :: 0 <= i < |fs| && fs[i].0 == k {
      GetPresent(Build(fs), k);
      BuildGet(fs, k);
    }
  }

  /** The ten attribute names are distinct, and are the names of AttributeNames. */
  lemma FieldNamesDistinct(fs: seq<Field>)
    requires |fs| == 10
    requires fs[0].0 == "id" && fs[1].0 == "name" && fs[2].0 == "type" && fs[3].0 == "subType"
    requires fs[4].0 == "category" && fs[5].0 == "nativeUnits" && fs[6].0 == "units"
    requires fs[7].0 == "nativeScale" && fs[8].0 == "significantDigits" && fs[9].0 == "coordinateSystem"
    ensures DistinctNames(fs)
    ensures forall i :: 0 <= i < |fs| ==> fs[i].0 in AttributeNames
  {
  }

  /** getAttributes' fields: id, name, type and category always; the rest when set. */
  function AttributeFields(
    id: string, name: string, itemType: string, subType: string, category: Category,
    nativeUnits: string, units: string, hasNativeScale: bool, scaleText: string,
    hasSignificantDigits: bool, significantDigits: int, coordinateSystem: string): seq<Field>
  {
    [("id", true, id),
     ("name", true, name),
     ("type", true, itemType),
     ("subType", subType != "", subType),
     ("category", true, if category == Sample then "SAMPLE" else "EVENT"),
     ("nativeUnits", nativeUnits != "", nativeUnits),
     ("units", units != "", units),
     ("nativeScale", hasNativeScale, scaleText),
     ("significantDigits", hasSignificantDigits, IntToString(significantDigits)),
     ("coordinateSystem", coordinateSystem != "", coordinateSystem)]
  }

  const AttributeNames: set<string> := {
    "id", "name", "type", "subType", "category", "nativeUnits", "units",
    "nativeScale", "significantDigits", "coordinateSystem"}

  // ---------------------------------------------------------------------

  class DataItem {
    const id: string
    const name: string
    const itemType: string
    const camelType: string
    const subType: string
    const category: Category
    const nativeUnits: string
    const units: string
    const hasNativeScale: bool
    const nativeScale: real
    const hasSignificantDigits: bool
    const significantDigits: int
    const coordinateSystem: string
    /** The adapter's name for the item, set after construction. */
    var source: string

    var conversionDetermined: bool
    var conversionRequired: bool
    var hasFactor: bool
    var conversionFactor: real
    var conversionOffset: real

    /** The memo agrees with the attributes: a cached factor and offset are the ones the units call for. */
    ghost predicate Valid()
      reads this
    {
      (conversionDetermined ==> conversionRequired == (nativeUnits != "")) &&
      (!conversionDetermined ==> !conversionRequired) &&
      (hasFactor ==> (hasNativeScale ==> nativeScale != 0.0) &&
                     conversionFactor == ScaledFactor(nativeUnits, hasNativeScale, nativeScale) &&
                     conversionOffset == Offset(nativeUnits))
    }

    /**
     * The constructor: the attribute map's values, with category SAMPLE only
     * for "SAMPLE" and the native units defaulting to the units. `scale` and
     * `digits` are what atof and atoi make of the nativeScale and
     * significantDigits texts.
     */
    constructor(attributes: Entries<string>, scale: real, digits: int)
      requires CamelDefined(Attribute(attributes, "type"))
      ensures id == Attribute(attributes, "id") && name == Attribute(attributes, "name")
      ensures itemType == Attribute(attributes, "type") && camelType == Camel(itemType)
      ensures subType == Attribute(attributes, "subType")
      ensures category == Sample <==> Attribute(attributes, "category") == "SAMPLE"
      ensures units == Attribute(attributes, "units")
      ensures nativeUnits == if Attribute(attributes, "nativeUnits") != "" then Attribute(attributes, "nativeUnits") else units
      ensures hasNativeScale == (Attribute(attributes, "nativeScale") != "") && (hasNativeScale ==> nativeScale == scale)
      ensures hasSignificantDigits == (Attribute(attributes, "significantDigits") != "") &&
              (hasSignificantDigits ==> significantDigits == digits)
      ensures coordinateSystem == Attribute(attributes, "coordinateSystem")
      ensures source == ""
      ensures !conversionDetermined && !conversionRequired && !hasFactor
      ensures Valid()
    {
      id := Attribute(attributes, "id");
      name := Attribute(attributes, "name");
      itemType := Attribute(attributes, "type");
      var camel := GetCamelType(Attribute(attributes, "type"));
      camelType := camel;
      subType := Attribute(attributes, "subType");
      category := if Attribute(attributes, "category") == "SAMPLE" then Sample else Event;
      var native := Attribute(attributes, "nativeUnits");
      units := Attribute(attributes, "units");
      if Attribute(attributes, "units") != "" && native == "" {
        native := Attribute(attributes, "units");
      }
      nativeUnits := native;
      hasNativeScale := Attribute(attributes, "nativeScale") != "";
      nativeScale := if Attribute(attributes, "nativeScale") != "" then scale else 0.0;
      hasSignificantDigits := Attribute(attributes, "significantDigits") != "";
      significantDigits := if Attribute(attributes, "significantDigits") != "" then digits else 0;
      coordinateSystem := Attribute(attributes, "coordinateSystem");
      source := "";
      conversionDetermined := false;
      conversionRequired := false;
      hasFactor := false;
      conversionFactor := 0.0;
      conversionOffset := 0.0;
    }

    /**
     * getAttributes: id, name, type and category are always present; subType,
     * nativeUnits, units and coordinateSystem exactly when non-empty;
     * nativeScale (as `scaleText`, floatToString's rendering) and
     * significantDigits exactly when set; no other key.
     */
    function Attributes(scaleText: string): (r: Entries<string>)
      ensures Ascending(r)
      ensures Get(r, "id") == Some(id) && Get(r, "name") == Some(name) && Get(r, "type") == Some(itemType)
      ensures Get(r, "category") == Some(if category == Sample then "SAMPLE" else "EVENT")
      ensures Get(r, "subType") == (if subType != "" then Some(subType) else None)
      ensures Get(r, "nativeUnits") == (if nativeUnits != "" then Some(nativeUnits) else None)
      ensures Get(r, "units") == (if units != "" then Some(units) else None)
      ensures Get(r, "coordinateSystem") == (if coordinateSystem != "" then Some(coordinateSystem) else None)
      ensures Get(r, "nativeScale") == (if hasNativeScale then Some(scaleText) else None)
      ensures Get(r, "significantDigits") == (if hasSignificantDigits then Some(IntToString(significantDigits)) else None)
      ensures Keys(r) <= AttributeNames
    {
      var fs := AttributeFields(id, name, itemType, subType, category, nativeUnits, units,
                                hasNativeScale, scaleText, hasSignificantDigits, significantDigits, coordinateSystem);
      FieldNamesDistinct(fs);
      BuildGetAt(fs, 0);
      BuildGetAt(fs, 1);
      BuildGetAt(fs, 2);
      BuildGetAt(fs, 3);
      BuildGetAt(fs, 4);
      BuildGetAt(fs, 5);
      BuildGetAt(fs, 6);
      BuildGetAt(fs, 7);
      BuildGetAt(fs, 8);
      BuildGetAt(fs, 9);
      BuildKeys(fs);
      Build(fs)
    }

    /**
     * hasName: the item answers to its name, and to its source when it has
     * one. The empty string names only an item whose name is empty.
     */
    predicate HasName(n: string)
      reads this
      ensures n == name ==> HasName(n)
      ensures HasName(n) && n == "" ==> name == ""
      ensures HasName(n) && n != name ==> n == source
    {
      n == name || (source != "" && source == n)
    }

    /** conversionRequired: decided once, on the first call, as "the native units are set". */
    method ConversionRequired() returns (r: bool)
      requires Valid()
      modifies this
      ensures Valid()
      ensures r == (nativeUnits != "")
      ensures conversionDetermined && conversionRequired == r
      ensures source == old(source) && hasFactor == old(hasFactor)
      ensures conversionFactor == old(conversionFactor) && conversionOffset == old(conversionOffset)
    {
      if !conversionDetermined {
        conversionDetermined := true;
        conversionRequired := nativeUnits != "";
      }
      r := conversionRequired;
    }

    /** simpleFactor: the table's factor; FAHRENHEIT also sets the offset to -32. */
    method SimpleFactor(unitName: string) returns (f: real)
      modifies this
      ensures f == UnitFactor(unitName)
      ensures conversionOffset == if unitName == "FAHRENHEIT" then -32.0 else old(conversionOffset)
      ensures source == old(source) && hasFactor == old(hasFactor) && conversionFactor == old(conversionFactor)
      ensures conversionDetermined == old(conversionDetermined) && conversionRequired == old(conversionRequired)
    {
      if unitName == "FAHRENHEIT" {
        conversionOffset := -32.0;
      }
      f := UnitFactor(unitName);
    }

    /**
     * convertValue: with a cached factor, (raw + offset) * factor; without
     * one, the raw reading unless conversion was found required, in which
     * case the factor and offset for the native units are computed, cached
     * and applied. Every later call reuses the cache.
     */
    method ConvertValue(raw: real) returns (r: real)
      requires Valid() && (hasNativeScale ==> nativeScale != 0.0)
      modifies this
      ensures Valid()
      ensures hasFactor == (old(hasFactor) || old(conversionRequired))
      ensures r == if hasFactor then Convert(raw, Offset(nativeUnits), ScaledFactor(nativeUnits, hasNativeScale, nativeScale)) else raw
      ensures source == old(source)
      ensures conversionDetermined == old(conversionDetermined) && conversionRequired == old(conversionRequired)
      decreases if hasFactor then 0 else 1
    {
      if hasFactor {
        r := Convert(raw, conversionOffset, conversionFactor);
      } else if !conversionRequired {
        r := raw;
      } else {
        conversionOffset := 0.0;
        ComputeFactor();
        if hasNativeScale {
          conversionFactor := conversionFactor / nativeScale;
        }
        hasFactor := true;
        r := ConvertValue(raw);
      }
    }

    /** The factor selection of convertValue, before the native scale. */
    method ComputeFactor()
      requires conversionOffset == 0.0
      modifies this
      ensures conversionFactor == Factor(nativeUnits) && conversionOffset == Offset(nativeUnits)
      ensures source == old(source) && hasFactor == old(hasFactor)
      ensures conversionDetermined == old(conversionDetermined) && conversionRequired == old(conversionRequired)
    {
      var slash := Find(nativeUnits, "/");
      if slash.None? {
        conversionFactor := SimpleFactor(nativeUnits);
      } else if nativeUnits == "REVOLUTION/MINUTE" {
        conversionFactor := 1.0;
      } else {
        var numerator := nativeUnits[..slash.value];
        var denominator := nativeUnits[slash.value + 1..];
        var caret := Find(denominator, "^");
        if numerator == "REVOLUTION" && denominator == "SECOND" {
          conversionFactor := 60.0;
        } else if caret.None? {
          var top := SimpleFactor(numerator);
          var bottom := SimpleFactor(denominator);
          conversionFactor := top / bottom;
        } else {
          var unitName := denominator[..caret.value];
          var power := denominator[caret.value + 1..];
          var base := SimpleFactor(unitName);
          var div := Pow(base, Exponent(power));
          var top := SimpleFactor(numerator);
          conversionFactor := top / div;
        }
      }
    }
  }
}
