/**
 The deterministic weather and flight tools: a 31-based hash with 32-bit wrap-around, ranges that rest
 on how it wraps, and flight ids that regenerate the flight they name.

 `toUpperCase` is a parameter: any function that leaves strings of capital letters alone. `toLowerCase`
 is applied by the caller of `WeatherFor`.
 */
module TripTools {
  import opened Common

  const WORD := 0x1_0000_0000
  const HALF := 0x8000_0000

  /** ToInt32, section 7.1.6 of ECMA-262. */
  function ToInt32(n: int): (r: int)
    ensures -HALF <= r < HALF
  {
    if n % WORD >= HALF then n % WORD - WORD else n % WORD
  }

  /** The hash before `Math.abs`. */
  function Hash(text: seq<CodeUnit>): (r: int)
    ensures -HALF <= r < HALF
  {
    if text == [] then 0 else ToInt32(Hash(text[..|text| - 1]) * 31 + text[|text| - 1])
  }

  function Abs(n: int): nat {
    if n < 0 then -n else n
  }

  /** `seedFrom`: never negative, but 2^31 is possible. */
  method SeedFrom(text: seq<CodeUnit>) returns (seed: nat)
    ensures seed == Abs(Hash(text)) <= HALF
  {
    var hash := 0;
    for i := 0 to |text|
      invariant hash == Hash(text[..i])
    {
      assert text[..i + 1][..i] == text[..i];
      hash := ToInt32(hash * 31 + text[i]);
    }
    assert text[..|text|] == text;
    seed := Abs(hash);
  }

  /** The polynomial without wrap-around. */
  function Exact(text: seq<CodeUnit>): nat {
    if text == [] then 0 else Exact(text[..|text| - 1]) * 31 + text[|text| - 1]
  }

  lemma Congruent(a: int, b: int, k: int)
    requires a == b + k * 0x1_0000_0000
    ensures ToInt32(a) == ToInt32(b)
  {
    assert a % 0x1_0000_0000 == b % 0x1_0000_0000;
  }

  lemma WrapStep(n: int, c: int)
    ensures ToInt32(ToInt32(n) * 31 + c) == ToInt32(n * 31 + c)
  {
    var k := if n % WORD >= HALF then n / WORD + 1 else n / WORD;
    assert n == ToInt32(n) + k * 0x1_0000_0000;
    Congruent(n * 31 + c, ToInt32(n) * 31 + c, 31 * k);
  }

  /** Wrapping at every step is wrapping once at the end. */
  lemma {:induction false} HashIsWrappedPolynomial(text: seq<CodeUnit>)
    ensures Hash(text) == ToInt32(Exact(text))
  {
    if text != [] {
      HashIsWrappedPolynomial(text[..|text| - 1]);
      WrapStep(Exact(text[..|text| - 1]), text[|text| - 1]);
    }
  }

  // ----- weather ----------------------------------------------------------------------------

  function Pow2(k: nat): (r: nat)
    ensures r > 0
  {
    if k == 0 then 1 else 2 * Pow2(k - 1)
  }

  /** The signed right shift: of the 32-bit value, rounding down. */
  function ShiftRight(n: int, k: nat): int {
    ToInt32(n) / Pow2(k)
  }

  /** The remainder that takes the sign of its dividend. */
  function Remainder(n: int, d: nat): int
    requires d > 0
  {
    if n >= 0 then n % d else -((-n) % d)
  }

  datatype Condition = Sunny | Cloudy | Rainy | Snowy | Windy

  const CONDITIONS := [Sunny, Cloudy, Rainy, Snowy, Windy]

  datatype Day = Day(highC: int, lowC: int, condition: Condition)

  datatype Weather = Weather(tempC: int, condition: Condition, forecast: seq<Day>)

  function DayOf(seed: nat, index: nat): Day
    requires index < 5
  {
    var high := 6 + seed % 22 + Remainder(ShiftRight(seed, index), 6);
    Day(high, high - (4 + Remainder(ShiftRight(seed, index + 3), 4)), CONDITIONS[(seed + index) % 5])
  }

  function Forecast(seed: nat): Weather {
    Weather(6 + seed % 22, CONDITIONS[seed % 5], seq(5, i requires 0 <= i < 5 => DayOf(seed, i)))
  }

  /** `weatherFor` of a location already in lower case. */
  function WeatherFor(location: seq<CodeUnit>): Weather {
    Forecast(Abs(Hash(location)))
  }

  lemma SmallPowers()
    ensures Pow2(0) == 1 && Pow2(1) == 2 && Pow2(2) == 4 && Pow2(3) == 8 && Pow2(4) == 16 && Pow2(5) == 32
            && Pow2(6) == 64 && Pow2(7) == 128
  {
    assert Pow2(4) == 16;
    assert Pow2(5) == 2 * Pow2(4);
    assert Pow2(6) == 2 * Pow2(5);
    assert Pow2(7) == 2 * Pow2(6);
  }

  /** 2^31 has become negative before it is shifted; every other seed stays as it is. */
  lemma Shifted(seed: nat, k: nat)
    requires seed <= HALF && k < 8
    ensures seed < HALF ==> ShiftRight(seed, k) >= 0
    ensures seed == HALF ==>
              ShiftRight(seed, k) ==
              [-2147483648, -1073741824, -536870912, -268435456, -134217728, -67108864, -33554432, -16777216][k]
  {
    SmallPowers();
    if seed < HALF {
      assert ToInt32(seed) == seed;
    } else {
      assert ToInt32(seed) == -2147483648;
    }
  }

  lemma DayRange(seed: nat, index: nat)
    requires seed <= HALF && index < 5
    ensures var day := DayOf(seed, index);
            && 4 <= day.highC - day.lowC <= 7
            && (seed < HALF ==> 6 + seed % 22 <= day.highC <= 6 + seed % 22 + 5)
            && (seed == HALF ==> day.highC < 6 + seed % 22)
  {
    Shifted(seed, index);
    Shifted(seed, index + 3);
  }

  /**
   For every location: a temperature of 6 to 27 degrees, a spread of 4 to 7 degrees on each day, and
   highs within 5 degrees above the current temperature if and only if the hash is not -2^31.
   */
  lemma WeatherRanges(location: seq<CodeUnit>)
    ensures var w := WeatherFor(location);
            && 6 <= w.tempC <= 27 && |w.forecast| == 5
            && (forall i :: 0 <= i < 5 ==> 4 <= w.forecast[i].highC - w.forecast[i].lowC <= 7)
            && ((forall i :: 0 <= i < 5 ==> w.tempC <= w.forecast[i].highC <= w.tempC + 5) <==> Hash(location) != -HALF)
  {
    var w := WeatherFor(location);
    var seed := Abs(Hash(location));
    forall i | 0 <= i < 5
      ensures 4 <= w.forecast[i].highC - w.forecast[i].lowC <= 7
      ensures seed < HALF ==> w.tempC <= w.forecast[i].highC <= w.tempC + 5
      ensures seed == HALF ==> w.forecast[i].highC < w.tempC
    {
      DayRange(seed, i);
    }
    if seed == HALF {
      assert w.forecast[0].highC < w.tempC;
    }
  }

  function After(c: Condition): Condition {
    match c
    case Sunny => Cloudy
    case Cloudy => Rainy
    case Rainy => Snowy
    case Snowy => Windy
    case Windy => Sunny
  }

  lemma DaysTakeTurns(seed: nat, index: nat)
    requires index < 4
    ensures DayOf(seed, index + 1).condition == After(DayOf(seed, index).condition)
  {
    assert (seed + (index + 1)) % 5 == ((seed + index) % 5 + 1) % 5;
  }

  /** The conditions take turns: the forecast starts with the current one and goes through all five. */
  lemma ConditionsTakeTurns(location: seq<CodeUnit>)
    ensures var w := WeatherFor(location);
            && w.forecast[0].condition == w.condition
            && w.forecast[1].condition == After(w.forecast[0].condition)
            && w.forecast[2].condition == After(w.forecast[1].condition)
            && w.forecast[3].condition == After(w.forecast[2].condition)
            && w.forecast[4].condition == After(w.forecast[3].condition)
  {
    var seed := Abs(Hash(location));
    DaysTakeTurns(seed, 0);
    DaysTakeTurns(seed, 1);
    DaysTakeTurns(seed, 2);
    DaysTakeTurns(seed, 3);
  }

  /** "oslo", in code units. */
  const OSLO: seq<CodeUnit> := [111, 115, 108, 111]

  lemma OsloHash()
    ensures Hash(OSLO) == 3420775
  {
    assert OSLO[..2][..1] == OSLO[..1] && OSLO[..3][..2] == OSLO[..2] && OSLO[..4][..3] == OSLO[..3];
    assert Hash(OSLO[..1]) == 111;
    assert Hash(OSLO[..2]) == 3556;
    assert Hash(OSLO[..3]) == 110344;
    assert OSLO[..4] == OSLO;
  }

  lemma OsloDay(index: nat)
    requires index < 5
    ensures DayOf(3420775, index) ==
              [Day(24, 20, Sunny), Day(26, 20, Cloudy), Day(24, 17, Rainy), Day(23, 18, Snowy),
               Day(23, 19, Windy)][index]
  {
    SmallPowers();
    assert ToInt32(3420775) == 3420775;
  }

  /** One forecast in full. */
  lemma OsloForecast()
    ensures WeatherFor(OSLO).tempC == 23 && WeatherFor(OSLO).condition == Sunny
    ensures WeatherFor(OSLO).forecast ==
              [Day(24, 20, Sunny), Day(26, 20, Cloudy), Day(24, 17, Rainy), Day(23, 18, Snowy), Day(23, 19, Windy)]
  {
    OsloHash();
    FiveDays(3420775);
    OsloDay(0);
    OsloDay(1);
    OsloDay(2);
    OsloDay(3);
    OsloDay(4);
  }

  /** "xfjfxtf", in code units. */
  const COLD: seq<CodeUnit> := [120, 102, 106, 102, 120, 116, 102]

  lemma ColdDay(index: nat)
    requires index < 5
    ensures DayOf(HALF, index) ==
              [Day(6, 2, Snowy), Day(4, 0, Windy), Day(6, 2, Sunny), Day(4, 0, Cloudy), Day(6, 2, Rainy)][index]
  {
    Shifted(HALF, index);
    Shifted(HALF, index + 3);
  }

  lemma ColdHash()
    ensures Hash(COLD) == -HALF
  {
    assert Hash(COLD[..1]) == 120;
    assert COLD[..2][..1] == COLD[..1];
    assert Hash(COLD[..2]) == 3822;
    assert COLD[..3][..2] == COLD[..2];
    assert Hash(COLD[..3]) == 118588;
    assert COLD[..4][..3] == COLD[..3];
    assert Hash(COLD[..4]) == 3676330;
    assert COLD[..5][..4] == COLD[..4];
    assert Hash(COLD[..5]) == 113966350;
    assert COLD[..6][..5] == COLD[..5];
    assert Hash(COLD[..6]) == -762010330;
    assert COLD[..7][..6] == COLD[..6];
    assert Hash(COLD[..7]) == -2147483648;
    assert COLD[..7] == COLD;
  }

  lemma FiveDays(seed: nat)
    ensures Forecast(seed).forecast ==
              [DayOf(seed, 0), DayOf(seed, 1), DayOf(seed, 2), DayOf(seed, 3), DayOf(seed, 4)]
  {
  }

  lemma ColdDays(seed: nat)
    requires seed == HALF
    ensures Forecast(seed).forecast ==
              [Day(6, 2, Snowy), Day(4, 0, Windy), Day(6, 2, Sunny), Day(4, 0, Cloudy), Day(6, 2, Rainy)]
  {
    FiveDays(seed);
    ColdDay(0);
    ColdDay(1);
    ColdDay(2);
    ColdDay(3);
    ColdDay(4);
  }

  lemma ColdNow(seed: nat)
    requires seed == HALF
    ensures Forecast(seed).tempC == 8 && Forecast(seed).condition == Snowy
  {
  }

  /** A seven-letter name reaches -2^31, and its whole forecast is colder than its current temperature. */
  lemma ColdForecast()
    ensures Hash(COLD) == -HALF
    ensures WeatherFor(COLD).tempC == 8 && WeatherFor(COLD).condition == Snowy
    ensures WeatherFor(COLD).forecast ==
              [Day(6, 2, Snowy), Day(4, 0, Windy), Day(6, 2, Sunny), Day(4, 0, Cloudy), Day(6, 2, Rainy)]
  {
    ColdHash();
    var seed := Abs(Hash(COLD));
    ColdDays(seed);
    ColdNow(seed);
  }
}
