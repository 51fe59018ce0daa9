/** The values the shipping controller works with: cities from the reference
    store, the quote it returns, and the two error statuses it can raise. */
module Domain {
  import opened Wrappers

  /** A point on the Earth's surface in degrees. Decimal literals are exact reals here. */
  datatype Coordinate = Coordinate(latitude: real, longitude: real)

  /** A city record as the reference store holds it. */
  datatype City = City(id: int, code: string, name: string, location: Coordinate)

  /** A shipping quote: a whole distance and its price, kept in integer cents. */
  datatype Ship = Ship(distance: nat, cost: int)

  /** The statuses the controller raises: 400 for a too-short search, 404 for an unknown city. */
  datatype Err = BadRequest | NotFound

  /** The city repository as seen by the controller: a lookup by id that may find
      nothing, and a text match scoped by a region code. Both are supplied from
      outside; the model never inspects how they work. */
  datatype CityStore = CityStore(
    findById: int -> Option<City>,
    matchText: (string, string) -> seq<City>)

  /** The distance calculator: a whole, non-negative distance from a city to a
      given origin. Its great-circle formula is supplied from outside. */
  type Calculator = (City, Coordinate) -> nat
}
