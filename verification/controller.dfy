/** The shaping and pricing logic of the shipping controller: the bounded city
    search behind `/match/{code}/{text}` and the quote behind `/calc/{id}`. The
    city repository and the distance calculator are parameters. */
module Controller {
  import opened Wrappers
  import opened Domain
  import opened Rounding

  /** Search text shorter than this is refused before the store is asked. */
  const MinTextLength: nat := 3

  /** A store answer longer than this is cut down. */
  const Cap: nat := 10

  /** How many cities are kept when the store's answer exceeds `Cap`. This is one
      fewer than `Cap`: the list is cut with `subList(0, 9)`. */
  const Kept: nat := 9

  /** The fixed warehouse origin every distance is measured from. */
  const Home: Coordinate := Coordinate(51.164896, 7.068792)

  /** Tariff in cents per unit of distance. */
  const CentsPerUnit: nat := 5

  // ---------------------------------------------------------------------------
  // Bounded city match
  // ---------------------------------------------------------------------------

  /** Limits the store's answer: a list of more than ten cities keeps its first
      nine, anything shorter is passed through whole. */
  function Shape(found: seq<City>): (r: seq<City>)
    ensures r <= found
    ensures |r| <= Cap
    ensures |found| <= Cap ==> r == found
    ensures |found| > Cap ==> |r| == Kept
  {
    if |found| > Cap then found[..Kept] else found
  }

  /** `match(code, text)`: refuse short text with BAD_REQUEST, otherwise ask the
      store and shape its answer. */
  function Match(store: CityStore, code: string, text: string): (r: Result<seq<City>, Err>)
    ensures r.Failure? <==> |text| < MinTextLength
    ensures r.Failure? ==> r.error == BadRequest
    ensures r.Success? ==> r.value <= store.matchText(code, text) && |r.value| <= Cap
  {
    if |text| < MinTextLength then Failure(BadRequest)
    else Success(Shape(store.matchText(code, text)))
  }

  /** The store is never consulted on short text: two stores, however different,
      give the same reply. */
  lemma ShortTextIgnoresStore(s1: CityStore, s2: CityStore, code: string, text: string)
    requires |text| < MinTextLength
    ensures Match(s1, code, text) == Match(s2, code, text) == Failure(BadRequest)
  {
  }

  /** On text of at least three characters the reply depends only on what the
      store answers for exactly this code and text. */
  lemma MatchAsksStoreOnce(s1: CityStore, s2: CityStore, code: string, text: string)
    requires |text| >= MinTextLength
    requires s1.matchText(code, text) == s2.matchText(code, text)
    ensures Match(s1, code, text) == Match(s2, code, text)
    ensures Match(s1, code, text).Success?
  {
  }

  /** Exact length of the reply, as a function of the length of the store's answer. */
  lemma MatchLength(store: CityStore, code: string, text: string)
    requires |text| >= MinTextLength
    ensures var n := |store.matchText(code, text)|;
      |Match(store, code, text).value| == if n > Cap then Kept else n
  {
  }

  /** The cap is not monotone: ten cities come back whole, one more leaves nine. */
  lemma ElevenBecomesNine(ten: seq<City>, extra: City)
    requires |ten| == Cap
    ensures Shape(ten) == ten
    ensures Shape(ten + [extra]) == ten[..Kept]
    ensures |Shape(ten + [extra])| < |Shape(ten)|
  {
    assert (ten + [extra])[..Kept] == ten[..Kept];
  }

  /** Shaping an already shaped reply changes nothing. */
  lemma ShapeIdempotent(found: seq<City>)
    ensures Shape(Shape(found)) == Shape(found)
  {
  }

  /** The reply built the way a serializer walks the retained view: element by
      element over the first `Kept` or all cities. It agrees with `Match`. */
  method MatchReply(store: CityStore, code: string, text: string)
    returns (r: Result<seq<City>, Err>)
    ensures r == Match(store, code, text)
  {
    if |text| < MinTextLength {
      return Failure(BadRequest);
    }
    var found := store.matchText(code, text);
    var limit := if |found| > Cap then Kept else |found|;
    assert found[..limit] == Shape(found);
    var out: seq<City> := [];
    var i := 0;
    while i < limit
      invariant 0 <= i <= limit <= |found|
      invariant out == found[..i]
    {
      out := out + [found[i]];
      i := i + 1;
    }
    return Success(out);
  }

  // ---------------------------------------------------------------------------
  // Shipping quote
  // ---------------------------------------------------------------------------

  /** `Math.rint(distance * 5)`: the price in cents as the source computes it,
      rounding the product before it is divided into dollars. */
  function CostCents(distance: nat): (c: int)
    ensures c >= 0
  {
    Rint((distance * CentsPerUnit) as real)
  }

  /** The price in dollars, `Math.rint(distance * 5) / 100.0`, on exact reals. */
  function CostDollars(distance: nat): (d: real)
    ensures d >= 0.0
  {
    CostCents(distance) as real / 100.0
  }

  /** Rounding an integral product is a no-op: the price is exactly five cents
      per unit of distance. */
  lemma CostIsExact(distance: nat)
    ensures CostCents(distance) == CentsPerUnit * distance
    ensures CostDollars(distance) == distance as real * 0.05
  {
    RintOfInteger(distance * CentsPerUnit);
  }

  /** A longer distance never costs less. */
  lemma CostMonotone(d1: nat, d2: nat)
    requires d1 <= d2
    ensures CostCents(d1) <= CostCents(d2)
  {
    CostIsExact(d1);
    CostIsExact(d2);
  }

  /** A quote is priced by the tariff: its cost is derived from its distance. */
  predicate Priced(s: Ship) {
    s.cost == CentsPerUnit * s.distance
  }

  /** `caclc(id)`: NOT_FOUND when the store has no city with this id, otherwise
      the distance from home and its price. */
  function Calc(store: CityStore, calculator: Calculator, id: int): (r: Result<Ship, Err>)
    ensures r.Failure? <==> store.findById(id).None?
    ensures r.Failure? ==> r.error == NotFound
    ensures r.Success? ==>
      && r.value.distance == calculator(store.findById(id).value, Home)
      && Priced(r.value)
  {
    match store.findById(id)
    case None => Failure(NotFound)
    case Some(city) =>
      var distance := calculator(city, Home);
      CostIsExact(distance);
      Success(Ship(distance, CostCents(distance)))
  }

  /** An unknown id is refused whatever the calculator would have said. */
  lemma NotFoundIgnoresCalculator(store: CityStore, c1: Calculator, c2: Calculator, id: int)
    requires store.findById(id).None?
    ensures Calc(store, c1, id) == Calc(store, c2, id) == Failure(NotFound)
  {
  }

  /** Every quote has a non-negative price, and a city farther from home never
      costs less than a nearer one. */
  lemma QuoteOrdering(store: CityStore, calculator: Calculator, id1: int, id2: int)
    requires Calc(store, calculator, id1).Success?
    requires Calc(store, calculator, id2).Success?
    requires Calc(store, calculator, id1).value.distance <= Calc(store, calculator, id2).value.distance
    ensures 0 <= Calc(store, calculator, id1).value.cost <= Calc(store, calculator, id2).value.cost
  {
  }
}
