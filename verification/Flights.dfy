/** The flight half of the trip tools: searching a route, and looking a flight up by its id alone. */
module Flights {
  import opened Common
  import opened TripTools

  datatype Airline = SkeinAir | LoomAirways | WeftJet | WarpAtlantic

  const AIRLINES := [SkeinAir, LoomAirways, WeftJet, WarpAtlantic]

  /** "HH:MM". */
  type Clock = s: string | |s| == 5 witness ['0', '0', ':', '0', '0']

  datatype Flight = Flight(
    id: string,
    airline: Airline,
    depart: Clock,
    arrive: Clock,
    durationMin: int,
    stops: nat,
    priceUsd: int)

  type Upper = string -> string

  predicate Capitals(s: string) {
    forall i :: 0 <= i < |s| ==> 'A' <= s[i] <= 'Z'
  }

  /** What this code needs of `toUpperCase`. */
  ghost predicate KeepsCapitals(upper: Upper) {
    forall s: string :: Capitals(s) ==> upper(s) == s
  }

  /** Everything but A-Z removed. */
  function Letters(s: string): (r: string)
    ensures Capitals(r)
  {
    if s == [] then [] else (if 'A' <= s[0] <= 'Z' then [s[0]] else []) + Letters(s[1..])
  }

  function Code(upper: Upper, place: string): (r: string)
    ensures |r| == 3 && Capitals(r)
  {
    (Letters(upper(place)) + ['X', 'X', 'X'])[..3]
  }

  lemma {:induction false} LettersOfCapitals(s: string)
    requires Capitals(s)
    ensures Letters(s) == s
  {
    if s != [] {
      LettersOfCapitals(s[1..]);
    }
  }

  /** A three-letter code is its own code. */
  lemma CodeIsIdempotent(upper: Upper, code: string)
    requires KeepsCapitals(upper) && Capitals(code) && |code| == 3
    ensures Code(upper, code) == code
  {
    LettersOfCapitals(code);
  }

  lemma {:induction false} LettersAppend(s: string, t: string)
    ensures Letters(s + t) == Letters(s) + Letters(t)
    ensures |s| == 1 ==> Letters(s) == if 'A' <= s[0] <= 'Z' then s else []
    decreases |s|
  {
    if s == [] {
      assert s + t == t;
    } else {
      assert (s + t)[1..] == s[1..] + t;
      LettersAppend(s[1..], t);
    }
  }

  /** A code is the first three letters of the place, or all of them and as many X as are missing. */
  lemma CodeTakesLetters(upper: Upper, place: string)
    ensures var letters, code := Letters(upper(place)), Code(upper, place);
            if |letters| >= 3 then code == letters[..3]
            else code[..|letters|] == letters && forall i :: |letters| <= i < 3 ==> code[i] == 'X'
  {
  }

  // ----- clock times ------------------------------------------------------------------------

  function TwoDigits(n: nat): (r: string)
    requires n < 100
    ensures |r| == 2
  {
    [('0' as int + n / 10) as char, ('0' as int + n % 10) as char]
  }

  function MinutesToClock(total: nat): (r: Clock)
    ensures r[2] == ':' && forall i :: 0 <= i < 5 && i != 2 ==> '0' <= r[i] <= '9'
  {
    TwoDigits(total / 60 % 24) + [':'] + TwoDigits(total % 60)
  }

  function NumberOf(digits: string): int {
    if digits == [] then 0 else NumberOf(digits[..|digits| - 1]) * 10 + (digits[|digits| - 1] as int - '0' as int)
  }

  function ClockToMinutes(clock: Clock): int {
    NumberOf(clock[..2]) * 60 + NumberOf(clock[3..])
  }

  lemma TwoDigitsNumber(n: nat)
    requires n < 100
    ensures NumberOf(TwoDigits(n)) == n
  {
    var s := TwoDigits(n);
    assert NumberOf(s[..1]) == n / 10;
  }

  lemma HoursAndMinutes(total: nat)
    ensures total % 1440 == total / 60 % 24 * 60 + total % 60
  {
    var hours := total / 60;
    assert hours == hours / 24 * 24 + hours % 24;
    assert total == hours * 60 + total % 60;
    assert total == hours / 24 * 1440 + (hours % 24 * 60 + total % 60);
  }

  /** A clock shows the minute of the day. */
  lemma ClockRoundTrip(total: nat)
    ensures ClockToMinutes(MinutesToClock(total)) == total % 1440
  {
    var h, m := total / 60 % 24, total % 60;
    var clock := MinutesToClock(total);
    TwoDigitsNumber(h);
    TwoDigitsNumber(m);
    assert clock[..2] == TwoDigits(h) && clock[3..] == TwoDigits(m);
    HoursAndMinutes(total);
  }

  // ----- the search -------------------------------------------------------------------------

  /** The seed of a route is that of its code units. */
  function Units(s: string): seq<CodeUnit>
    requires Capitals(s)
  {
    seq(|s|, i requires 0 <= i < |s| => s[i] as int)
  }

  function Seed(route: string): nat
    requires Capitals(route)
  {
    Abs(Hash(Units(route)))
  }

  function FlightId(route: string, index: nat): string
    requires index < 4
  {
    route + ['-', '1', '0', ('0' as int + index) as char]
  }

  function Departure(seed: nat, index: nat): nat {
    6 * 60 + index * 3 * 60 + seed % 45
  }

  function Duration(seed: nat, index: nat): (r: int)
    ensures -120 <= r <= 360
  {
    120 + Remainder(ShiftRight(seed, index), 9) * 30
  }

  function Price(seed: nat, index: nat): int {
    149 + Remainder(ShiftRight(seed, index + 1), 20) * 25 + index * 40
  }

  /** One of the four options, in the order they are generated. */
  function Choice(route: string, seed: nat, index: nat): Flight
    requires index < 4
  {
    Flight(FlightId(route, index), AIRLINES[(seed + index) % 4], MinutesToClock(Departure(seed, index)),
           MinutesToClock(Departure(seed, index) + Duration(seed, index)), Duration(seed, index),
           if index == 3 then 1 else 0, Price(seed, index))
  }

  function Choices(route: string, seed: nat): (r: seq<Flight>)
    ensures |r| == 4
  {
    seq(4, i requires 0 <= i < 4 => Choice(route, seed, i))
  }

  /** `flights.sort((a, b) => a.priceUsd - b.priceUsd)`: stable, cheapest first. */
  function Insert(f: Flight, sorted: seq<Flight>): seq<Flight> {
    if sorted == [] || f.priceUsd <= sorted[0].priceUsd then [f] + sorted else [sorted[0]] + Insert(f, sorted[1..])
  }

  function SortByPrice(flights: seq<Flight>): seq<Flight> {
    if flights == [] then [] else Insert(flights[0], SortByPrice(flights[1..]))
  }

  predicate PriceOrdered(flights: seq<Flight>) {
    forall i, j :: 0 <= i < j < |flights| ==> flights[i].priceUsd <= flights[j].priceUsd
  }

  /** Everything in `flights` costs at least `price`. */
  predicate AtLeast(flights: seq<Flight>, price: int) {
    forall i :: 0 <= i < |flights| ==> price <= flights[i].priceUsd
  }

  lemma {:induction false} InsertSorts(f: Flight, sorted: seq<Flight>, low: int)
    requires PriceOrdered(sorted) && AtLeast(sorted, low) && low <= f.priceUsd
    ensures PriceOrdered(Insert(f, sorted)) && AtLeast(Insert(f, sorted), low)
  {
    if sorted != [] && f.priceUsd > sorted[0].priceUsd {
      InsertSorts(f, sorted[1..], sorted[0].priceUsd);
    }
  }

  lemma {:induction false} InsertPermutes(f: Flight, sorted: seq<Flight>)
    ensures multiset(Insert(f, sorted)) == multiset(sorted) + multiset{f}
  {
    if sorted != [] && f.priceUsd > sorted[0].priceUsd {
      InsertPermutes(f, sorted[1..]);
      assert sorted == [sorted[0]] + sorted[1..];
    }
  }

  /** A bound below every price. */
  function Floor(flights: seq<Flight>): int {
    if flights == [] then 0
    else if flights[0].priceUsd < Floor(flights[1..]) then flights[0].priceUsd else Floor(flights[1..])
  }

  lemma {:induction false} SortByPriceSorts(flights: seq<Flight>)
    ensures PriceOrdered(SortByPrice(flights)) && AtLeast(SortByPrice(flights), Floor(flights))
    ensures multiset(SortByPrice(flights)) == multiset(flights)
  {
    if flights != [] {
      SortByPriceSorts(flights[1..]);
      InsertSorts(flights[0], SortByPrice(flights[1..]), Floor(flights));
      InsertPermutes(flights[0], SortByPrice(flights[1..]));
      assert flights == [flights[0]] + flights[1..];
    }
  }

  function WithPrice(flights: seq<Flight>, price: int): seq<Flight> {
    if flights == [] then []
    else (if flights[0].priceUsd == price then [flights[0]] else []) + WithPrice(flights[1..], price)
  }

  lemma WithPriceCons(f: Flight, rest: seq<Flight>, price: int)
    ensures WithPrice([f] + rest, price) == (if f.priceUsd == price then [f] else []) + WithPrice(rest, price)
  {
    assert ([f] + rest)[1..] == rest;
  }

  lemma {:induction false} InsertIsStable(f: Flight, sorted: seq<Flight>, price: int)
    ensures WithPrice(Insert(f, sorted), price) == (if f.priceUsd == price then [f] else []) + WithPrice(sorted, price)
  {
    if sorted == [] || f.priceUsd <= sorted[0].priceUsd {
      WithPriceCons(f, sorted, price);
    } else {
      InsertIsStable(f, sorted[1..], price);
      WithPriceCons(sorted[0], Insert(f, sorted[1..]), price);
    }
  }

  /** Flights of one price keep the order they were generated in. */
  lemma {:induction false} SortIsStable(flights: seq<Flight>, price: int)
    ensures WithPrice(SortByPrice(flights), price) == WithPrice(flights, price)
  {
    if flights != [] {
      SortIsStable(flights[1..], price);
      InsertIsStable(flights[0], SortByPrice(flights[1..]), price);
    }
  }

  lemma {:induction false} WithPriceMember(flights: seq<Flight>, f: Flight)
    ensures f in WithPrice(flights, f.priceUsd) <==> f in flights
    ensures forall g, price :: g in WithPrice(flights, price) ==> g.priceUsd == price
  {
    if flights != [] {
      WithPriceMember(flights[1..], f);
    }
  }

  /** The cheapest flight, and the first of its price, comes first. */
  lemma FirstsAgree(xs: seq<Flight>, ys: seq<Flight>)
    requires PriceOrdered(xs) && PriceOrdered(ys) && xs != []
    requires forall price :: WithPrice(xs, price) == WithPrice(ys, price)
    ensures ys != [] && xs[0] == ys[0]
  {
    WithPriceMember(xs, xs[0]);
    WithPriceMember(ys, xs[0]);
    assert xs[0] in ys;
    WithPriceMember(xs, ys[0]);
    WithPriceMember(ys, ys[0]);
    assert ys[0] in xs;
    assert WithPrice(xs, xs[0].priceUsd)[0] == xs[0] && WithPrice(ys, ys[0].priceUsd)[0] == ys[0];
  }

  lemma RestsAgree(xs: seq<Flight>, ys: seq<Flight>, price: int)
    requires xs != [] && ys != [] && xs[0] == ys[0] && WithPrice(xs, price) == WithPrice(ys, price)
    ensures WithPrice(xs[1..], price) == WithPrice(ys[1..], price)
  {
    var head := if xs[0].priceUsd == price then [xs[0]] else [];
    assert WithPrice(xs[1..], price) == WithPrice(xs, price)[|head|..];
    assert WithPrice(ys[1..], price) == WithPrice(ys, price)[|head|..];
  }

  /** Price order and stability leave one result, so any stable sort gives this one. */
  lemma {:induction false} StableSortIsUnique(xs: seq<Flight>, ys: seq<Flight>)
    requires PriceOrdered(xs) && PriceOrdered(ys)
    requires forall price :: WithPrice(xs, price) == WithPrice(ys, price)
    ensures xs == ys
  {
    if xs == [] {
      if ys != [] {
        FirstsAgree(ys, xs);
      }
    } else {
      FirstsAgree(xs, ys);
      forall price ensures WithPrice(xs[1..], price) == WithPrice(ys[1..], price) {
        assert WithPrice(xs, price) == WithPrice(ys, price);
        RestsAgree(xs, ys, price);
      }
      StableSortIsUnique(xs[1..], ys[1..]);
      assert xs == [xs[0]] + xs[1..] && ys == [ys[0]] + ys[1..];
    }
  }

  lemma {:induction false} InsertAfter(f: Flight, sorted: seq<Flight>, k: nat)
    requires k <= |sorted| && forall i :: 0 <= i < k ==> sorted[i].priceUsd < f.priceUsd
    ensures Insert(f, sorted) == sorted[..k] + Insert(f, sorted[k..])
  {
    if k == 0 {
      assert sorted[..0] + Insert(f, sorted[0..]) == Insert(f, sorted);
    } else {
      InsertAfter(f, sorted[1..], k - 1);
      assert sorted[1..][k - 1..] == sorted[k..];
      assert sorted[..k] == [sorted[0]] + sorted[1..][..k - 1];
    }
  }

  /** `after` is `before` with the flight at `start` moved right to `at`, past the cheaper ones. */
  predicate MovedRight(before: seq<Flight>, after: seq<Flight>, start: nat, at: nat)
    requires |before| == |after| && start <= at < |before|
  {
    && (forall i :: 0 <= i < |before| && (i < start || at < i) ==> after[i] == before[i])
    && (forall i :: start <= i < at ==> after[i] == before[i + 1] && before[i + 1].priceUsd < before[start].priceUsd)
    && after[at] == before[start]
  }

  lemma MovingInserts(before: seq<Flight>, after: seq<Flight>, start: nat, at: nat)
    requires |before| == |after| && start <= at < |before| && MovedRight(before, after, start, at)
    requires at + 1 < |before| ==> before[start].priceUsd <= before[at + 1].priceUsd
    ensures after[..start] == before[..start]
    ensures after[start..] == Insert(before[start], before[start + 1..])
  {
    var f, sorted := before[start], before[start + 1..];
    forall k | 0 <= k < at - start ensures after[start + k] == sorted[k] && sorted[k].priceUsd < f.priceUsd {
      assert after[start + k] == before[start + k + 1];
    }
    InsertAfter(f, sorted, at - start);
    assert after[start..] == sorted[..at - start] + ([f] + sorted[at - start..]);
  }

  /** One flight moves right, past the cheaper ones, into the sorted rest of the array. */
  method InsertInPlace(a: array<Flight>, start: nat)
    requires start < a.Length
    modifies a
    ensures a[..start] == old(a[..start])
    ensures a[start..] == Insert(old(a[start]), old(a[start + 1..]))
  {
    var at := start;
    ghost var before := a[..];
    while at + 1 < a.Length && a[at + 1].priceUsd < a[at].priceUsd
      invariant start <= at < a.Length
      invariant MovedRight(before, a[..], start, at)
    {
      a[at], a[at + 1] := a[at + 1], a[at];
      at := at + 1;
    }
    MovingInserts(before, a[..], start, at);
    assert before[..start] == old(a[..start]) && before[start + 1..] == old(a[start + 1..]);
  }

  /** `flights.sort`, in place. */
  method SortInPlace(a: array<Flight>)
    modifies a
    ensures a[..] == SortByPrice(old(a[..]))
    ensures PriceOrdered(a[..]) && multiset(a[..]) == multiset(old(a[..]))
  {
    ghost var flights := a[..];
    var i := a.Length;
    while i > 0
      invariant 0 <= i <= a.Length
      invariant a[..i] == flights[..i]
      invariant a[i..] == SortByPrice(flights[i..])
    {
      i := i - 1;
      assert flights[i..] == [flights[i]] + flights[i + 1..];
      assert a[..i + 1][..i] == a[..i] && a[i] == a[..i + 1][i];
      InsertInPlace(a, i);
    }
    assert a[..] == a[0..] && flights[0..] == flights;
    SortByPriceSorts(flights);
  }

  /** `flightsFor`: the options are generated and then sorted where they are. */
  method SearchFlights(upper: Upper, from: string, to: string) returns (flights: array<Flight>)
    ensures fresh(flights) && flights[..] == FlightsFor(upper, from, to)
  {
    var route := Code(upper, from) + Code(upper, to);
    var seed := Seed(route);
    flights := new Flight[4](i requires 0 <= i < 4 => Choice(route, seed, i));
    assert flights[..] == Choices(route, seed);
    SortInPlace(flights);
  }

  function FlightsFor(upper: Upper, from: string, to: string): seq<Flight> {
    var route := Code(upper, from) + Code(upper, to);
    SortByPrice(Choices(route, Seed(route)))
  }

  // ----- ranges -----------------------------------------------------------------------------

  lemma ExactLast(u: seq<CodeUnit>, c: CodeUnit)
    ensures Exact(u + [c]) == Exact(u) * 31 + c
  {
    assert (u + [c])[..|u|] == u;
  }

  lemma SixTerms(u: seq<CodeUnit>)
    requires |u| == 6
    ensures Exact(u) == ((((u[0] as int * 31 + u[1]) * 31 + u[2]) * 31 + u[3]) * 31 + u[4]) * 31 + u[5]
  {
    ExactLast([], u[0]);
    assert [] + [u[0]] == u[..1];
    ExactLast(u[..1], u[1]);
    assert u[..1] + [u[1]] == u[..2];
    ExactLast(u[..2], u[2]);
    assert u[..2] + [u[2]] == u[..3];
    ExactLast(u[..3], u[3]);
    assert u[..3] + [u[3]] == u[..4];
    ExactLast(u[..4], u[4]);
    assert u[..4] + [u[4]] == u[..5];
    ExactLast(u[..5], u[5]);
    assert u[..5] + [u[5]] == u;
  }

  /** Six capitals hash above 2^30 either way the sum wraps, and never to -2^31: 2^31 is 2 modulo 31. */
  lemma RouteSeed(route: string)
    requires Capitals(route) && |route| == 6
    ensures 1632456256 <= Seed(route) < HALF
  {
    var u := Units(route);
    HashIsWrappedPolynomial(u);
    SixTerms(u);
    Wrapped(u[0], u[1], u[2], u[3], u[4], u[5]);
  }

  lemma Wrapped(a: nat, b: nat, c: nat, d: nat, e: nat, f: nat)
    requires 65 <= a <= 90 && 65 <= b <= 90 && 65 <= c <= 90 && 65 <= d <= 90 && 65 <= e <= 90 && 65 <= f <= 90
    ensures 1632456256 <= Abs(ToInt32(((((a * 31 + b) * 31 + c) * 31 + d) * 31 + e) * 31 + f)) < HALF
  {
    var upper := (((a * 31 + b) * 31 + c) * 31 + d) * 31 + e;
    var n := upper * 31 + f;
    assert 1922924640 <= n <= 2662511040;
    assert n % 31 == f % 31;
  }

  lemma ChoiceNumbers(route: string, index: nat)
    requires Capitals(route) && |route| == 6 && index < 4
    ensures var seed := Seed(route);
            && 120 <= Duration(seed, index) <= 360
            && 149 <= Price(seed, index) <= 744
            && Departure(seed, index) + Duration(seed, index) < 1440
  {
    RouteSeed(route);
    Shifted(Seed(route), index);
    Shifted(Seed(route), index + 1);
  }

  lemma SameDay(total: nat)
    requires total < 1440
    ensures ClockToMinutes(MinutesToClock(total)) == total
  {
    ClockRoundTrip(total);
  }

  /** One generated option: 2 to 6 hours, 149 to 744 dollars, and arrival later on the same day. */
  lemma ChoiceRanges(route: string, index: nat)
    requires Capitals(route) && |route| == 6 && index < 4
    ensures var f := Choice(route, Seed(route), index);
            && 120 <= f.durationMin <= 360
            && 149 <= f.priceUsd <= 744
            && 0 <= ClockToMinutes(f.depart)
            && ClockToMinutes(f.arrive) == ClockToMinutes(f.depart) + f.durationMin < 1440
  {
    var seed := Seed(route);
    ChoiceNumbers(route, index);
    SameDay(Departure(seed, index));
    SameDay(Departure(seed, index) + Duration(seed, index));
  }

  lemma SortKeepsMembers(flights: seq<Flight>, f: Flight)
    ensures f in SortByPrice(flights) <==> f in flights
  {
    SortByPriceSorts(flights);
    assert f in SortByPrice(flights) <==> f in multiset(SortByPrice(flights));
    assert f in flights <==> f in multiset(flights);
  }

  predicate IsChoice(route: string, f: Flight)
    requires Capitals(route)
  {
    exists i :: 0 <= i < 4 && f == Choice(route, Seed(route), i)
  }

  /** Every flight a search returns is one of the four options of its route. */
  lemma SearchReturnsChoices(upper: Upper, from: string, to: string, f: Flight)
    ensures f in FlightsFor(upper, from, to) <==> IsChoice(Code(upper, from) + Code(upper, to), f)
  {
    var route := Code(upper, from) + Code(upper, to);
    var choices := Choices(route, Seed(route));
    SortKeepsMembers(choices, f);
    if i :| 0 <= i < 4 && f == Choice(route, Seed(route), i) {
      assert f == choices[i];
    }
  }

  /** For every pair of places: cheapest first, and every flight within its ranges. */
  lemma SearchRanges(upper: Upper, from: string, to: string)
    ensures var flights := FlightsFor(upper, from, to);
            && PriceOrdered(flights)
            && |flights| == 4
            && forall i :: 0 <= i < 4 ==>
                 var f := flights[i];
                 && 120 <= f.durationMin <= 360 && 149 <= f.priceUsd <= 744
                 && ClockToMinutes(f.depart) < ClockToMinutes(f.arrive) < 1440
  {
    var flights := FlightsFor(upper, from, to);
    var route := Code(upper, from) + Code(upper, to);
    var choices := Choices(route, Seed(route));
    SortByPriceSorts(choices);
    assert |multiset(flights)| == |multiset(choices)|;
    forall i | 0 <= i < 4
      ensures 120 <= flights[i].durationMin <= 360 && 149 <= flights[i].priceUsd <= 744
              && ClockToMinutes(flights[i].depart) < ClockToMinutes(flights[i].arrive) < 1440
    {
      SearchReturnsChoices(upper, from, to, flights[i]);
      var j :| 0 <= j < 4 && flights[i] == Choice(route, Seed(route), j);
      ChoiceRanges(route, j);
    }
  }

  // ----- the lookup -------------------------------------------------------------------------

  /** The pattern: six capitals, a hyphen, one or more digits. */
  predicate LooksLikeId(id: string) {
    |id| >= 8 && Capitals(id[..6]) && id[6] == '-' && forall i :: 7 <= i < |id| ==> '0' <= id[i] <= '9'
  }

  function Find(flights: seq<Flight>, id: string): Option<Flight> {
    if flights == [] then None else if flights[0].id == id then Some(flights[0]) else Find(flights[1..], id)
  }

  function LookupFlight(upper: Upper, id: string): Option<Flight> {
    if LooksLikeId(id) then Find(FlightsFor(upper, id[..3], id[3..6]), id) else None
  }

  lemma {:induction false} FindFinds(flights: seq<Flight>, id: string)
    ensures var r := Find(flights, id);
            && (r.Some? ==> r.value in flights && r.value.id == id)
            && (r.None? ==> forall f :: f in flights ==> f.id != id)
  {
    if flights != [] && flights[0].id != id {
      FindFinds(flights[1..], id);
    }
  }

  /** The options of a route have different ids. */
  lemma IdsDiffer(route: string, i: nat, j: nat)
    requires i < 4 && j < 4 && FlightId(route, i) == FlightId(route, j)
    ensures i == j
  {
    assert FlightId(route, i)[|route| + 3] == ('0' as int + i) as char;
    assert FlightId(route, j)[|route| + 3] == ('0' as int + j) as char;
  }

  /** Searching by the codes an id carries is searching its route. */
  lemma RouteFromId(upper: Upper, route: string, index: nat)
    requires KeepsCapitals(upper) && Capitals(route) && |route| == 6 && index < 4
    ensures var id := FlightId(route, index);
            LooksLikeId(id) && Code(upper, id[..3]) + Code(upper, id[3..6]) == route
  {
    var id := FlightId(route, index);
    assert id[..6] == route && id[..3] == route[..3] && id[3..6] == route[3..];
    CodeIsIdempotent(upper, route[..3]);
    CodeIsIdempotent(upper, route[3..]);
    assert route[..3] + route[3..] == route;
  }

  lemma LookupChoice(upper: Upper, route: string, index: nat)
    requires KeepsCapitals(upper) && Capitals(route) && |route| == 6 && index < 4
    ensures LookupFlight(upper, FlightId(route, index)) == Some(Choice(route, Seed(route), index))
  {
    var id := FlightId(route, index);
    var f := Choice(route, Seed(route), index);
    RouteFromId(upper, route, index);
    var flights := FlightsFor(upper, id[..3], id[3..6]);
    SearchReturnsChoices(upper, id[..3], id[3..6], f);
    FindFinds(flights, id);
    var found := Find(flights, id).value;
    SearchReturnsChoices(upper, id[..3], id[3..6], found);
    var j :| 0 <= j < 4 && found == Choice(route, Seed(route), j);
    IdsDiffer(route, index, j);
  }

  /** For every pair of places and every flight found between them, its id alone finds it again. */
  lemma EveryFoundFlightIsLookedUp(upper: Upper, from: string, to: string)
    requires KeepsCapitals(upper)
    ensures forall f :: f in FlightsFor(upper, from, to) ==> LookupFlight(upper, f.id) == Some(f)
  {
    var route := Code(upper, from) + Code(upper, to);
    forall f | f in FlightsFor(upper, from, to) ensures LookupFlight(upper, f.id) == Some(f) {
      SearchReturnsChoices(upper, from, to, f);
      var i :| 0 <= i < 4 && f == Choice(route, Seed(route), i);
      LookupChoice(upper, route, i);
    }
  }

  /** And nothing else is found: a lookup succeeds exactly on the ids of the options of some route. */
  lemma LookupSucceedsExactly(upper: Upper, id: string)
    requires KeepsCapitals(upper)
    ensures LookupFlight(upper, id).Some? <==>
              |id| == 10 && Capitals(id[..6]) && exists i :: 0 <= i < 4 && id == FlightId(id[..6], i)
  {
    if LookupFlight(upper, id).Some? {
      var flights := FlightsFor(upper, id[..3], id[3..6]);
      FindFinds(flights, id);
      var found := Find(flights, id).value;
      SearchReturnsChoices(upper, id[..3], id[3..6], found);
      CodeIsIdempotent(upper, id[..3]);
      CodeIsIdempotent(upper, id[3..6]);
      assert id[..3] + id[3..6] == id[..6];
      var j :| 0 <= j < 4 && found == Choice(id[..6], Seed(id[..6]), j);
      assert id == FlightId(id[..6], j);
    } else if |id| == 10 && Capitals(id[..6]) && exists i :: 0 <= i < 4 && id == FlightId(id[..6], i) {
      var i :| 0 <= i < 4 && id == FlightId(id[..6], i);
      LookupChoice(upper, id[..6], i);
    }
  }

  // ----- one search in full -----------------------------------------------------------------

  const ROUTE := ['L', 'H', 'R', 'J', 'F', 'K']

  lemma RouteHash()
    ensures Seed(ROUTE) == 2050142087
  {
    var u: seq<CodeUnit> := [76, 72, 82, 74, 70, 75];
    assert Units(ROUTE) == u;
    HashIsWrappedPolynomial(u);
    SixTerms(u);
    assert ((((76 * 31 + 72) * 31 + 82) * 31 + 74) * 31 + 70) * 31 + 75 == 2244825209;
    assert ToInt32(2244825209) == -2050142087;
  }

  /** The options of this route. */
  function Expected(index: nat): Flight
    requires index < 4
  {
    [Flight("LHRJFK-100", WarpAtlantic, "06:02", "09:02", 180, 0, 224),
     Flight("LHRJFK-101", SkeinAir, "09:02", "13:32", 270, 0, 214),
     Flight("LHRJFK-102", LoomAirways, "12:02", "15:02", 180, 0, 229),
     Flight("LHRJFK-103", WeftJet, "15:02", "19:32", 270, 1, 269)][index]
  }

  lemma RouteTimes(index: nat)
    requires index < 4
    ensures Departure(2050142087, index) == [362, 542, 722, 902][index]
    ensures Duration(2050142087, index) == [180, 270, 180, 270][index]
  {
    SmallPowers();
    assert ToInt32(2050142087) == 2050142087;
  }

  lemma RouteNumbers(index: nat)
    requires index < 4
    ensures Price(2050142087, index) == [224, 214, 229, 269][index]
    ensures AIRLINES[(2050142087 + index) % 4] == [WarpAtlantic, SkeinAir, LoomAirways, WeftJet][index]
  {
    SmallPowers();
    assert ToInt32(2050142087) == 2050142087;
  }

  lemma RouteClocks()
    ensures MinutesToClock(362) == "06:02" && MinutesToClock(542) == "09:02" && MinutesToClock(722) == "12:02"
    ensures MinutesToClock(902) == "15:02" && MinutesToClock(812) == "13:32" && MinutesToClock(1172) == "19:32"
  {
  }

  lemma RouteChoice(index: nat)
    requires index < 4
    ensures Choice(ROUTE, 2050142087, index) == Expected(index)
  {
    RouteTimes(index);
    RouteNumbers(index);
    RouteClocks();
    assert FlightId(ROUTE, index) == ["LHRJFK-100", "LHRJFK-101", "LHRJFK-102", "LHRJFK-103"][index];
  }

  lemma SortFour(f: seq<Flight>)
    requires |f| == 4 && f[1].priceUsd < f[0].priceUsd <= f[2].priceUsd <= f[3].priceUsd
    ensures SortByPrice(f) == [f[1], f[0], f[2], f[3]]
  {
    assert f == [f[0], f[1], f[2], f[3]];
    assert f[1..] == [f[1], f[2], f[3]] && f[1..][1..] == [f[2], f[3]] && f[1..][1..][1..] == [f[3]];
    assert f[1..][1..][1..][1..] == [];
    assert SortByPrice(f[1..][1..][1..]) == [f[3]];
    assert SortByPrice(f[1..][1..]) == [f[2], f[3]];
    assert SortByPrice(f[1..]) == [f[1], f[2], f[3]];
    assert Insert(f[0], [f[2], f[3]]) == [f[0], f[2], f[3]];
  }

  lemma RouteOption(index: nat)
    requires index < 4
    ensures Choices(ROUTE, 2050142087)[index] == Expected(index)
  {
    RouteChoice(index);
  }

  lemma RoutePrices(f: seq<Flight>)
    requires |f| == 4 && forall i :: 0 <= i < 4 ==> f[i] == Expected(i)
    ensures f[1].priceUsd < f[0].priceUsd <= f[2].priceUsd <= f[3].priceUsd
  {
    assert f[0] == Expected(0) && f[1] == Expected(1) && f[2] == Expected(2) && f[3] == Expected(3);
  }

  /** One search in full, cheapest first. */
  lemma OneSearch(upper: Upper)
    requires KeepsCapitals(upper)
    ensures FlightsFor(upper, "LHR", "JFK") == [Expected(1), Expected(0), Expected(2), Expected(3)]
  {
    CodeIsIdempotent(upper, "LHR");
    CodeIsIdempotent(upper, "JFK");
    assert Code(upper, "LHR") + Code(upper, "JFK") == ROUTE;
    RouteHash();
    var f := Choices(ROUTE, 2050142087);
    forall i | 0 <= i < 4 ensures f[i] == Expected(i) {
      RouteOption(i);
    }
    RoutePrices(f);
    SortFour(f);
  }
}
